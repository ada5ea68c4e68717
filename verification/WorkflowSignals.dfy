/** Pausing, resuming and cancelling a workflow from outside. */
module WorkflowSignals {

  datatype Control = Control(commandID: string, action: string, actorID: string)

  function Applied(paused: bool, command: Control): bool {
    if command.commandID == "" || command.actorID == "" then paused
    else if command.action == "PAUSE" then true
    else if command.action == "RESUME" then false
    else paused
  }

  function PausedAfter(paused: bool, commands: seq<Control>): bool {
    if commands == [] then paused else Applied(PausedAfter(paused, commands[..|commands| - 1]), commands[|commands| - 1])
  }

  predicate Asks(commands: seq<Control>) {
    exists command :: command in commands && command.action == "PAUSE"
  }

  /** A paused workflow moves again exactly when the last command that counts was a resumption. */
  lemma {:induction false} LastCommandDecides(paused: bool, commands: seq<Control>, k: nat)
    requires k < |commands| && commands[k].commandID != "" && commands[k].actorID != ""
    requires commands[k].action in {"PAUSE", "RESUME"}
    requires forall i :: k < i < |commands| && commands[i].action in {"PAUSE", "RESUME"} ==>
               commands[i].commandID == "" || commands[i].actorID == ""
    ensures PausedAfter(paused, commands) <==> commands[k].action == "PAUSE"
  {
    var init := commands[..|commands| - 1];
    if k < |commands| - 1 {
      LastCommandDecides(paused, init, k);
    }
  }

  /**
   The controls of one workflow. controls is everything that will still be sent, in order; how much of it has
   arrived by any moment is left open, and the workflow may be cancelled at any moment.
   */
  class Signals {
    var state: string
    var paused: bool
    var cancelled: bool
    var controls: seq<Control>

    constructor (controls: seq<Control>)
      ensures !paused && !cancelled && this.controls == controls
    {
      state := "QUEUED";
      paused, cancelled := false, false;
      this.controls := controls;
    }

    method Receive()
      requires controls != []
      modifies this`paused, this`controls
      ensures controls == old(controls)[1..] && paused == Applied(old(paused), old(controls)[0])
    {
      var command := controls[0];
      controls := controls[1..];
      if command.commandID == "" || command.actorID == "" {
        return;
      }
      match command.action {
        case "PAUSE" => paused := true;
        case "RESUME" => paused := false;
        case _ =>
      }
    }

    /** Takes in what has arrived; asked says whether anybody asked to pause. */
    method Drain() returns (asked: bool, ghost n: nat)
      modifies this`paused, this`controls
      ensures n <= |old(controls)| && controls == old(controls)[n..]
      ensures paused == PausedAfter(old(paused), old(controls)[..n])
      ensures asked <==> Asks(old(controls)[..n])
    {
      hide PausedAfter, Asks;
      n, asked := 0, false;
      ghost var all, start := controls, paused;
      NothingSent(paused, all);
      var arrived: nat := *;
      while arrived > 0 && controls != []
        invariant n <= |all| && controls == all[n..] && paused == PausedAfter(start, all[..n])
        invariant asked <==> Asks(all[..n])
        decreases arrived
      {
        OneMore(start, all, n);
        if controls[0].action == "PAUSE" {
          asked := true;
        }
        Receive();
        arrived, n := arrived - 1, n + 1;
      }
    }

    /**
     Takes in what has arrived and, while paused, waits for more. n is how many commands it took; blocked says
     that it is still waiting after the last command there will be.
     */
    method WaitForResume() returns (observed: bool, blocked: bool, ghost n: nat)
      modifies this
      ensures n <= |old(controls)| && controls == old(controls)[n..]
      ensures paused == PausedAfter(old(paused), old(controls)[..n])
      ensures old(cancelled) ==> cancelled
      ensures blocked ==> paused && controls == [] && !cancelled
      ensures !blocked ==> !paused || cancelled
      ensures state == if paused then "PAUSED" else old(state)
      ensures observed <==> old(paused) || Asks(old(controls)[..n])
      ensures observed && !paused ==> n > 0
      ensures paused ==> observed
    {
      hide PausedAfter, Asks;
      ghost var all := controls;
      var start := paused;
      NothingSent(start, all);
      var asked;
      asked, n := Drain();
      observed, blocked := start || asked, false;
      PausingIsSeen(start, all[..n]);
      if !paused {
        return;
      }
      var previous := state;
      state := "PAUSED";
      observed := true;
      while paused
        invariant n <= |all| && controls == all[n..] && paused == PausedAfter(start, all[..n])
        invariant old(cancelled) ==> cancelled
        invariant start || Asks(all[..n])
        invariant (paused || n > 0) && state == "PAUSED"
        decreases |controls|
      {
        var cancel: bool := *;
        cancelled := cancelled || cancel;
        if cancelled {
          return;
        }
        if controls == [] {
          blocked := true;
          return;
        }
        OneMore(start, all, n);
        Receive();
        n := n + 1;
      }
      state := previous;
    }
  }

  lemma NothingSent(paused: bool, all: seq<Control>)
    ensures PausedAfter(paused, all[..0]) == paused && !Asks(all[..0])
  {
  }

  lemma OneMore(paused: bool, all: seq<Control>, n: nat)
    requires n < |all|
    ensures PausedAfter(paused, all[..n + 1]) == Applied(PausedAfter(paused, all[..n]), all[n])
    ensures Asks(all[..n + 1]) <==> Asks(all[..n]) || all[n].action == "PAUSE"
  {
    assert all[..n + 1] == all[..n] + [all[n]];
    AsksGrows(all[..n], all[n]);
  }

  lemma AsksGrows(commands: seq<Control>, next: Control)
    ensures Asks(commands + [next]) <==> Asks(commands) || next.action == "PAUSE"
  {
    assert next in commands + [next];
    if Asks(commands) {
      var command :| command in commands && command.action == "PAUSE";
      assert command in commands + [next];
    }
  }

  lemma {:induction false} PausedAfterSplits(paused: bool, a: seq<Control>, b: seq<Control>)
    ensures PausedAfter(paused, a + b) == PausedAfter(PausedAfter(paused, a), b)
  {
    if b == [] {
      assert a + b == a;
    } else {
      assert (a + b)[..|a + b| - 1] == a + b[..|b| - 1];
      PausedAfterSplits(paused, a, b[..|b| - 1]);
    }
  }

  /** None of these commands left the workflow paused. */
  ghost predicate Calm(paused: bool, commands: seq<Control>) {
    forall k :: 1 <= k <= |commands| ==> !PausedAfter(paused, commands[..k])
  }

  /** One more command keeps things calm exactly if it leaves the workflow running. */
  lemma CalmGrows(paused: bool, all: seq<Control>, n: nat)
    requires n < |all|
    ensures Calm(paused, all[..n + 1]) <==> Calm(paused, all[..n]) && !PausedAfter(paused, all[..n + 1])
  {
    var longer := all[..n + 1];
    assert longer[..n + 1] == longer;
    assert forall k :: 1 <= k <= n ==> longer[..k] == all[..n][..k];
  }

  lemma CalmThrough(paused: bool, all: seq<Control>, m: nat, more: nat)
    requires m + more <= |all| && Calm(paused, all[..m]) && !PausedAfter(paused, all[..m]) && !Asks(all[m..][..more])
    ensures Calm(paused, all[..m + more]) && all[m..][more..] == all[m + more..]
  {
    hide Calm, PausedAfter, Asks;
    assert all[m..][..more] == all[m..m + more];
    CalmWithoutAsking(paused, all, m, m + more);
  }

  /** A running workflow whose commands do not ask to pause stays calm. */
  lemma CalmWithoutAsking(paused: bool, all: seq<Control>, m: nat, n: nat)
    requires m <= n <= |all| && Calm(paused, all[..m]) && !PausedAfter(paused, all[..m]) && !Asks(all[m..n])
    ensures Calm(paused, all[..n])
    decreases n
  {
    if m == n {
    } else {
      assert forall command :: command in all[m..n - 1] ==> command in all[m..n];
      CalmWithoutAsking(paused, all, m, n - 1);
      CalmGrows(paused, all, n - 1);
      assert all[..n] == all[..m] + all[m..n];
      PausedAfterSplits(paused, all[..m], all[m..n]);
      PausingIsSeen(false, all[m..n]);
    }
  }

  /** A workflow is paused only if it was, or if somebody asked for it. */
  lemma {:induction false} PausingIsSeen(paused: bool, commands: seq<Control>)
    ensures PausedAfter(paused, commands) ==> paused || Asks(commands)
  {
    if commands != [] {
      var init, last := commands[..|commands| - 1], commands[|commands| - 1];
      assert commands == init + [last];
      AsksGrows(init, last);
      PausingIsSeen(paused, init);
    }
  }
}
