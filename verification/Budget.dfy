/** Budget envelopes, the budget gate, and ceiling pricing with a 128-bit intermediate. */
module Budget {
  import opened Wrappers

  const MAX_INT64: int := 0x7fff_ffff_ffff_ffff
  const TWO_64: int := 0x1_0000_0000_0000_0000

  newtype int64 = n: int | -0x8000_0000_0000_0000 <= n <= 0x7fff_ffff_ffff_ffff

  newtype uint64 = n: int | 0 <= n < 0x1_0000_0000_0000_0000

  const SUBSCRIPTION_INCLUDED_ONLY := "subscription_included_only"

  datatype BudgetEnvelope = BudgetEnvelope(
    estimatedCostMicros: int64,
    maxCostMicros: int64,
    maxAttempts: int,
    billingMode: string,
    reservedAFPMilli: int64)
  {
    /** Cash-free only under an explicit subscription with a positive AFP reservation; otherwise a positive cash cap. */
    predicate Valid() {
      && 0 <= estimatedCostMicros <= maxCostMicros
      && maxAttempts >= 1
      && reservedAFPMilli >= 0
      && (if billingMode == SUBSCRIPTION_INCLUDED_ONLY then maxCostMicros == 0 && reservedAFPMilli > 0
          else billingMode == "" && maxCostMicros > 0 && reservedAFPMilli == 0)
    }
  }

  /** An envelope estimates within its cap, allows an attempt, and is paid for either in cash or by a subscription. */
  lemma EnvelopesMean(budget: BudgetEnvelope)
    ensures var subscribed := budget.billingMode == SUBSCRIPTION_INCLUDED_ONLY;
      budget.Valid() <==>
        && budget.estimatedCostMicros >= 0 && budget.maxCostMicros >= budget.estimatedCostMicros && budget.maxAttempts > 0
        && budget.billingMode in ["", SUBSCRIPTION_INCLUDED_ONLY]
        && (subscribed ==> budget.maxCostMicros <= 0 && budget.reservedAFPMilli > 0)
        && (!subscribed ==> budget.maxCostMicros > 0 && budget.reservedAFPMilli == 0)
  {
  }

  function Sum(values: seq<int64>): int {
    if values == [] then 0 else Sum(values[..|values| - 1]) + values[|values| - 1] as int
  }

  lemma {:induction false} SumsAddUp(a: seq<int64>, b: seq<int64>)
    ensures Sum(a + b) == Sum(a) + Sum(b) && forall value :: Sum([value]) == value as int
  {
    forall value: int64 ensures Sum([value]) == value as int {
      assert [value][..0] == [];
    }
    if b == [] {
      assert a + b == a;
    } else {
      assert (a + b)[..|a + b| - 1] == a + b[..|b| - 1];
      SumsAddUp(a, b[..|b| - 1]);
    }
  }

  /** Adds non-negative amounts, refusing negative ones and totals past the int64 range. */
  method CheckedAddNonNegative(values: seq<int64>) returns (total: int64, ok: bool)
    ensures ok <==> (forall value :: value in values ==> value >= 0) && Sum(values) <= MAX_INT64
    ensures total as int == if ok then Sum(values) else 0
  {
    total := 0;
    for k := 0 to |values|
      invariant forall m :: 0 <= m < k ==> values[m] >= 0
      invariant total as int == Sum(values[..k]) >= 0
    {
      SumOfPrefix(values, k);
      assert values[k] in values;
      if values[k] < 0 || values[k] > 0x7fff_ffff_ffff_ffff - total {
        if values[k] >= 0 {
          PrefixSumsGrow(values, k + 1);
        }
        return 0, false;
      }
      total := total + values[k];
    }
    assert values[..|values|] == values;
    ok := true;
  }

  lemma SumOfPrefix(values: seq<int64>, k: nat)
    requires k < |values|
    ensures Sum(values[..k + 1]) == Sum(values[..k]) + values[k] as int
  {
    assert values[..k + 1][..k] == values[..k];
  }

  /** With only non-negative amounts no prefix exceeds the whole. */
  lemma {:induction false} PrefixSumsGrow(values: seq<int64>, k: nat)
    requires k <= |values|
    ensures (forall value :: value in values ==> value >= 0) ==> Sum(values[..k]) <= Sum(values)
    decreases |values| - k
  {
    if k == |values| {
      assert values[..k] == values;
    } else {
      SumOfPrefix(values, k);
      assert values[k] in values;
      PrefixSumsGrow(values, k + 1);
    }
  }

  // ---- The gate ----

  datatype BudgetPolicy = BudgetPolicy(softLimitMicros: int64, hardLimitMicros: int64, maxAttempts: int)

  datatype BudgetDecision = BudgetDecision(projectedMicros: int64, softWarning: bool)

  datatype GateError = NegativeAmount | TooManyAttempts | RangeExceeded | HardLimitExceeded

  /** What the request would bring total spending to. */
  function Projection(spent: int64, reserved: int64, envelope: BudgetEnvelope): int {
    spent as int + reserved as int + envelope.maxCostMicros as int
  }

  method EvaluateBudget(policy: BudgetPolicy, spent: int64, reserved: int64, envelope: BudgetEnvelope)
    returns (decision: BudgetDecision, failure: Option<GateError>)
    ensures failure == Some(NegativeAmount) <==>
      spent < 0 || reserved < 0 || envelope.estimatedCostMicros < 0 || envelope.maxCostMicros < 0
      || policy.softLimitMicros < 0 || policy.hardLimitMicros < 0
    ensures failure == Some(TooManyAttempts) <==>
      failure != Some(NegativeAmount) && 0 < policy.maxAttempts < envelope.maxAttempts
    ensures failure == Some(RangeExceeded) <==>
      failure !in {Some(NegativeAmount), Some(TooManyAttempts)} && Projection(spent, reserved, envelope) > MAX_INT64
    ensures failure == Some(HardLimitExceeded) <==>
      && failure !in {Some(NegativeAmount), Some(TooManyAttempts), Some(RangeExceeded)}
      && 0 < policy.hardLimitMicros as int < Projection(spent, reserved, envelope)
    ensures failure in {Some(NegativeAmount), Some(TooManyAttempts)} ==> decision == BudgetDecision(0, false)
    ensures failure == Some(RangeExceeded) ==> decision.projectedMicros as int == MAX_INT64
    ensures failure in {None, Some(HardLimitExceeded)} ==> decision.projectedMicros as int == Projection(spent, reserved, envelope)
    ensures decision.softWarning <==> failure.None? && 0 < policy.softLimitMicros <= decision.projectedMicros
  {
    if spent < 0 || reserved < 0 || envelope.estimatedCostMicros < 0 || envelope.maxCostMicros < 0
       || policy.softLimitMicros < 0 || policy.hardLimitMicros < 0 {
      return BudgetDecision(0, false), Some(NegativeAmount);
    }
    if policy.maxAttempts > 0 && envelope.maxAttempts > policy.maxAttempts {
      return BudgetDecision(0, false), Some(TooManyAttempts);
    }
    var amounts := [spent, reserved, envelope.maxCostMicros];
    var projected, ok := CheckedAddNonNegative(amounts);
    assert Sum(amounts) == Projection(spent, reserved, envelope) by {
      SumOfPrefix(amounts, 0);
      SumOfPrefix(amounts, 1);
      SumOfPrefix(amounts, 2);
      assert amounts[..3] == amounts && amounts[..0] == [];
    }
    if !ok {
      return BudgetDecision(0x7fff_ffff_ffff_ffff, false), Some(RangeExceeded);
    }
    if policy.hardLimitMicros > 0 && projected > policy.hardLimitMicros {
      return BudgetDecision(projected, false), Some(HardLimitExceeded);
    }
    decision := BudgetDecision(projected, policy.softLimitMicros > 0 && projected >= policy.softLimitMicros);
    failure := None;
  }

  // ---- Ceiling prices ----

  /** The full 128-bit product, high word first. */
  function Mul64(x: uint64, y: uint64): (words: (uint64, uint64))
    ensures words.0 as int * TWO_64 + words.1 as int == x as int * y as int
  {
    var product := x as int * y as int;
    ProductFits(x as int, y as int);
    ((product / TWO_64) as uint64, (product % TWO_64) as uint64)
  }

  lemma Scale(a: nat, b: nat, factor: nat)
    requires a <= b
    ensures a * factor <= b * factor
  {
  }

  lemma DivideBelow(amount: nat, divisor: nat, bound: nat)
    requires divisor > 0 && amount < bound * divisor
    ensures 0 <= amount / divisor < bound
  {
    assert amount == amount / divisor * divisor + amount % divisor;
    if amount / divisor >= bound {
      Scale(bound, amount / divisor, divisor);
    }
  }

  lemma ProductFits(x: nat, y: nat)
    requires x < TWO_64 && y < TWO_64
    ensures 0 <= x * y / TWO_64 < TWO_64
  {
    Scale(x, TWO_64 - 1, y);
    DivideBelow(x * y, TWO_64, TWO_64);
  }

  /** Division of a 128-bit value whose quotient must fit in one word. */
  function Div64(high: uint64, low: uint64, divisor: uint64): (r: (uint64, uint64))
    requires high < divisor
    ensures high as int * TWO_64 + low as int == r.0 as int * divisor as int + r.1 as int
    ensures r.1 < divisor
  {
    var dividend := high as int * TWO_64 + low as int;
    QuotientFits(high as int, low as int, divisor as int);
    ((dividend / divisor as int) as uint64, (dividend % divisor as int) as uint64)
  }

  lemma QuotientFits(high: nat, low: nat, divisor: nat)
    requires high < divisor && low < TWO_64
    ensures 0 <= (high * TWO_64 + low) / divisor < TWO_64
  {
    Scale(high, divisor - 1, TWO_64);
    DivideBelow(high * TWO_64 + low, divisor, TWO_64);
  }

  /** Least whole number of divisors that covers amount. */
  function Ceiling(amount: nat, divisor: nat): nat
    requires divisor > 0
  {
    (amount + divisor - 1) / divisor
  }

  lemma CeilingCovers(amount: nat, divisor: nat)
    requires divisor > 0
    ensures amount <= Ceiling(amount, divisor) * divisor < amount + divisor
  {
    var n := amount + divisor - 1;
    assert n == n / divisor * divisor + n % divisor;
  }

  lemma CeilingIsLeast(amount: nat, divisor: nat, count: nat)
    requires divisor > 0 && amount <= count * divisor
    ensures Ceiling(amount, divisor) <= count
  {
    hide Ceiling;
    CeilingCovers(amount, divisor);
    var c := Ceiling(amount, divisor);
    if c > count {
      Scale(count + 1, c, divisor);
    }
  }

  /** A quotient and remainder determine the ceiling. */
  lemma CeilingOfQuotient(quotient: nat, remainder: nat, divisor: nat)
    requires remainder < divisor
    ensures Ceiling(quotient * divisor + remainder, divisor) == if remainder > 0 then quotient + 1 else quotient
  {
    hide Ceiling;
    var amount := quotient * divisor + remainder;
    var count := if remainder > 0 then quotient + 1 else quotient;
    CeilingIsLeast(amount, divisor, count);
    CeilingCovers(amount, divisor);
    var c := Ceiling(amount, divisor);
    if c < count {
      Scale(c, count - 1, divisor);
    }
  }

  /** The exact price where it fits, otherwise the largest representable one. */
  function Price(units: nat, rate: nat, divisor: nat): nat
    requires divisor > 0
  {
    if Ceiling(units * rate, divisor) <= MAX_INT64 then Ceiling(units * rate, divisor) else MAX_INT64
  }

  /** Ceiling price, saturating at the int64 range so that budget gates fail closed. */
  method RoundedCost(units: int64, rate: int64, divisor: int64) returns (cost: int64)
    ensures units <= 0 || rate <= 0 || divisor <= 0 ==> cost == 0
    ensures units > 0 && rate > 0 && divisor > 0 ==> cost as int == Price(units as int, rate as int, divisor as int)
  {
    if units <= 0 || rate <= 0 || divisor <= 0 {
      return 0;
    }
    hide Ceiling;
    var words := Mul64(units as uint64, rate as uint64);
    var high, low := words.0, words.1;
    if high >= divisor as uint64 {
      LargeProductsSaturate(high as int, low as int, divisor as int);
      return 0x7fff_ffff_ffff_ffff;
    }
    var result := Div64(high, low, divisor as uint64);
    var quotient, remainder := result.0, result.1;
    CeilingOfQuotient(quotient as int, remainder as int, divisor as int);
    if quotient > 0x7fff_ffff_ffff_ffff {
      return 0x7fff_ffff_ffff_ffff;
    }
    if remainder > 0 {
      if quotient == 0x7fff_ffff_ffff_ffff {
        return 0x7fff_ffff_ffff_ffff;
      }
      quotient := quotient + 1;
    }
    cost := quotient as int64;
  }

  /** The high word reaches the divisor exactly when the quotient does not fit 64 bits, the case the division must not see. */
  lemma DivisionFitsBelowTheDivisor(high: nat, low: nat, divisor: nat)
    requires 0 < divisor && low < TWO_64
    ensures divisor <= high <==> (high * TWO_64 + low) / divisor >= TWO_64
  {
    var amount := high * TWO_64 + low;
    var quotient := amount / divisor;
    assert amount == quotient * divisor + amount % divisor;
    if divisor <= high {
      if quotient < TWO_64 {
        Scale(quotient, TWO_64 - 1, divisor);
      }
    } else if quotient >= TWO_64 {
      Scale(TWO_64, quotient, divisor);
    }
  }

  /** Then the exact price is beyond the int64 range, so the cap is right. */
  lemma LargeProductsSaturate(high: nat, low: nat, divisor: nat)
    requires 0 < divisor <= high
    ensures Ceiling(high * TWO_64 + low, divisor) > MAX_INT64
  {
    hide Ceiling;
    CeilingCovers(high * TWO_64 + low, divisor);
    var c := Ceiling(high * TWO_64 + low, divisor);
    if c <= MAX_INT64 {
      Scale(c, MAX_INT64, divisor);
      Scale(divisor, high, MAX_INT64);
    }
  }

  /** More units at a higher rate per smaller divisor never cost less. */
  lemma {:induction false} PriceIsMonotone(units: nat, rate: nat, divisor: nat, units': nat, rate': nat, divisor': nat)
    requires units <= units' && rate <= rate' && 0 < divisor' <= divisor
    ensures Price(units, rate, divisor) <= Price(units', rate', divisor')
  {
    hide Ceiling;
    var c := Ceiling(units' * rate', divisor');
    CeilingCovers(units' * rate', divisor');
    Scale(units, units', rate);
    Scale(rate, rate', units');
    Scale(divisor', divisor, c);
    CeilingIsLeast(units * rate, divisor, c);
  }

  /** The price covers the amount owed unless it saturated, and then the exact price is out of range. */
  lemma {:induction false} PriceNeverUndercharges(units: nat, rate: nat, divisor: nat)
    requires divisor > 0
    ensures Price(units, rate, divisor) * divisor >= units * rate
            || (Price(units, rate, divisor) == MAX_INT64 && MAX_INT64 * divisor < units * rate)
    ensures forall price: nat :: price * divisor >= units * rate ==> Price(units, rate, divisor) <= price
  {
    hide Ceiling;
    CeilingCovers(units * rate, divisor);
    forall price: nat | price * divisor >= units * rate ensures Price(units, rate, divisor) <= price {
      CeilingIsLeast(units * rate, divisor, price);
    }
    if MAX_INT64 * divisor >= units * rate {
      CeilingIsLeast(units * rate, divisor, MAX_INT64);
    }
  }
}
