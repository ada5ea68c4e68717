/** Reusable asset revisions, and the four context layers resolved into the one context a prompt is built from. */
module ContextResolution {
  import opened Wrappers
  import opened Text
  import opened Dependencies

  datatype Failure = Validation | Policy | Conflict | NotFound | StaleReference

  // ---- Assets ----

  datatype Asset = Asset(
    revision: RevisionRef,
    assetID: string,
    kind: string,
    defaultRole: string,
    uri: string,
    mediaType: string,
    licenseReference: string,
    approvalID: string,
    authorized: bool,
    active: bool,
    attributes: map<string, string>)
  {
    /** Complete, active, authorized, approved, and pinned to its own content. */
    predicate Valid() {
      && CompleteRef(revision) && revision.kind == "asset"
      && !Blank(assetID) && !Blank(uri) && !Blank(mediaType) && !Blank(licenseReference) && !Blank(approvalID)
      && kind != "" && defaultRole != "" && authorized && active
      && uri == "cas://sha256/" + revision.contentHash
    }

    function ProviderRef(role: string): AssetRef {
      AssetRef(assetID, revision.id, kind, if role == "" then defaultRole else role, uri, revision.contentHash,
               licenseReference, mediaType)
    }
  }

  datatype AssetRef = AssetRef(
    id: string, revision: string, kind: string, role: string, uri: string, sha256: string, license: string, mediaType: string)

  /** The word "latest" under simple case folding, in which the long s (U+017F) is an s. */
  predicate Latest(id: string) {
    |id| == 6
    && id[0] in "lL" && id[1] in "aA" && id[2] in "tT" && id[3] in "eE" && id[4] in "sS\U{017F}" && id[5] in "tT"
  }

  class AssetCatalog {
    var byRevision: map<string, Asset>

    constructor ()
      ensures byRevision == map[] && Valid()
    {
      byRevision := map[];
    }

    ghost predicate Valid()
      reads this
    {
      forall id :: id in byRevision ==> byRevision[id].revision.id == id && byRevision[id].Valid()
    }

    /** A revision is added once, and can afterwards only be confirmed. hash digests a whole asset. */
    method Add(asset: Asset, hash: Asset -> string) returns (failure: Option<Failure>)
      requires Valid()
      modifies this
      ensures Valid()
      ensures byRevision == if asset.Valid() && asset.revision.id !in old(byRevision)
                            then old(byRevision)[asset.revision.id := asset] else old(byRevision)
      ensures failure.None? <==>
        asset.Valid() && (asset.revision.id in old(byRevision) ==> hash(old(byRevision)[asset.revision.id]) == hash(asset))
    {
      if !asset.Valid() {
        return Some(Policy);
      }
      if asset.revision.id in byRevision {
        if hash(byRevision[asset.revision.id]) != hash(asset) {
          return Some(Conflict);
        }
        return None;
      }
      byRevision := byRevision[asset.revision.id := asset];
      failure := None;
    }

    /** Only exact revision IDs name anything. */
    method Resolve(revisionID: string) returns (r: Result<Asset, Failure>)
      requires Valid()
      ensures r.Ok? <==> Known(byRevision, revisionID)
      ensures r.Ok? ==> r.value == byRevision[revisionID]
    {
      if revisionID == "" || Latest(revisionID) {
        return Err(StaleReference);
      }
      if revisionID !in byRevision {
        return Err(NotFound);
      }
      var asset := byRevision[revisionID];
      if !asset.Valid() {
        return Err(Policy);
      }
      r := Ok(asset);
    }
  }

  predicate Known(assets: map<string, Asset>, revisionID: string) {
    revisionID != "" && !Latest(revisionID) && revisionID in assets
  }

  // ---- Layers ----

  datatype Scope = Series | Episode | Scene | Shot

  const ORDERED: seq<Scope> := [Series, Episode, Scene, Shot]

  datatype Layer = Layer(
    revision: RevisionRef, scope: Scope, scopeID: string, values: map<string, string>, assetBindings: map<string, string>)

  datatype ResolverPolicy = ResolverPolicy(allowedKeys: map<Scope, set<string>>, allowedAssetOverride: map<Scope, set<string>>) {
    predicate AllowsKey(scope: Scope, key: string) {
      scope in allowedKeys && key in allowedKeys[scope]
    }

    predicate AllowsOverride(scope: Scope, alias: string) {
      scope in allowedAssetOverride && alias in allowedAssetOverride[scope]
    }
  }

  const DEFAULT_POLICY := ResolverPolicy(
    map[
      Series := {"visual.style", "visual.palette", "world.rules", "audience", "output.aspect_ratio", "output.fps", "negative.global"},
      Episode := {"story.mood", "story.pacing", "camera.language", "visual.palette", "negative.episode"},
      Scene := {"scene.location", "scene.time", "scene.weather", "lighting", "story.mood", "camera.language", "negative.scene"},
      Shot := {"camera.framing", "camera.angle", "camera.movement", "motion.intensity", "emotion", "negative.shot"}],
    map[Shot := {"character.primary", "prop.primary"}])

  /** Text rules left open: how a value is normalized, and which keys could carry credentials. */
  datatype Rules = Rules(normalize: string -> string, sensitive: string -> bool)

  datatype EffectiveContext = EffectiveContext(
    revisions: seq<string>,
    revisionHashes: map<Scope, string>,
    values: map<string, string>,
    origins: map<string, Scope>,
    assets: map<string, AssetRef>)

  // ---- The fold the resolver must compute ----

  /** What a layer contributes for some of its keys. */
  function Normalized(rules: Rules, layer: Layer, keys: set<string>): map<string, string>
    requires keys <= layer.values.Keys
  {
    map key | key in keys :: rules.normalize(layer.values[key])
  }

  function Sources(layer: Layer, keys: set<string>): map<string, Scope> {
    map key | key in keys :: layer.scope
  }

  function Bound(layer: Layer, aliases: set<string>): map<string, string>
    requires aliases <= layer.assetBindings.Keys
  {
    map alias | alias in aliases :: layer.assetBindings[alias]
  }

  function Values(rules: Rules, layers: seq<Layer>): map<string, string> {
    if layers == [] then map[]
    else
      var last := layers[|layers| - 1];
      Values(rules, layers[..|layers| - 1]) + Normalized(rules, last, last.values.Keys)
  }

  function Origins(layers: seq<Layer>): map<string, Scope> {
    if layers == [] then map[]
    else
      var last := layers[|layers| - 1];
      Origins(layers[..|layers| - 1]) + Sources(last, last.values.Keys)
  }

  function Bindings(layers: seq<Layer>): map<string, string> {
    if layers == [] then map[] else Bindings(layers[..|layers| - 1]) + layers[|layers| - 1].assetBindings
  }

  function Hashes(layers: seq<Layer>): map<Scope, string> {
    if layers == [] then map[]
    else Hashes(layers[..|layers| - 1])[layers[|layers| - 1].scope := layers[|layers| - 1].revision.contentHash]
  }

  function AssetsOf(assets: map<string, Asset>, bindings: map<string, string>): map<string, AssetRef> {
    map alias | alias in bindings && bindings[alias] in assets ::
      assets[bindings[alias]].ProviderRef(assets[bindings[alias]].defaultRole)
  }

  function Folded(rules: Rules, assets: map<string, Asset>, layers: seq<Layer>): EffectiveContext {
    EffectiveContext(seq(|layers|, i requires 0 <= i < |layers| => layers[i].revision.id), Hashes(layers), Values(rules, layers),
                     Origins(layers), AssetsOf(assets, Bindings(layers)))
  }

  // ---- When the layers resolve ----

  predicate HeadFits(layer: Layer, scope: Scope) {
    layer.scope == scope && layer.scopeID != "" && CompleteRef(layer.revision) && layer.revision.kind == "context"
  }

  predicate ValueFits(policy: ResolverPolicy, rules: Rules, layer: Layer, key: string)
    requires key in layer.values
  {
    policy.AllowsKey(layer.scope, key) && !rules.sensitive(key) && rules.normalize(layer.values[key]) != ""
  }

  /** An asset may be bound under an alias that lower layers bound to something else only by an allowed override. */
  predicate BindingFits(policy: ResolverPolicy, assets: map<string, Asset>, prior: map<string, string>, layer: Layer, alias: string)
    requires alias in layer.assetBindings
  {
    && Known(assets, layer.assetBindings[alias])
    && (alias in prior && prior[alias] != layer.assetBindings[alias] ==> policy.AllowsOverride(layer.scope, alias))
  }

  predicate LayerFits(policy: ResolverPolicy, rules: Rules, assets: map<string, Asset>, layers: seq<Layer>, i: nat)
    requires i < |layers| && i < |ORDERED|
  {
    && HeadFits(layers[i], ORDERED[i])
    && ValuesFit(policy, rules, layers[i], layers[i].values.Keys)
    && BindingsFit(policy, assets, Bindings(layers[..i]), layers[i], layers[i].assetBindings.Keys)
  }

  predicate Resolvable(policy: ResolverPolicy, rules: Rules, assets: map<string, Asset>, layers: seq<Layer>) {
    |layers| == |ORDERED| && forall i :: 0 <= i < |layers| ==> LayerFits(policy, rules, assets, layers, i)
  }

  predicate ValuesFit(policy: ResolverPolicy, rules: Rules, layer: Layer, keys: set<string>)
    requires keys <= layer.values.Keys
  {
    forall key :: key in keys ==> ValueFits(policy, rules, layer, key)
  }

  predicate BindingsFit(
      policy: ResolverPolicy, assets: map<string, Asset>, prior: map<string, string>, layer: Layer, aliases: set<string>)
    requires aliases <= layer.assetBindings.Keys
  {
    forall alias :: alias in aliases ==> BindingFits(policy, assets, prior, layer, alias)
  }

  /** When a layer fits: complete, in its place, with allowed values that are not empty, and with bindings to known assets. */
  lemma LayersMustFit(policy: ResolverPolicy, rules: Rules, assets: map<string, Asset>, layers: seq<Layer>, i: nat)
    requires i < |layers| && i < 4
    ensures LayerFits(policy, rules, assets, layers, i) <==>
      var layer, below := layers[i], Bindings(layers[..i]);
      && layer.scope == [Series, Episode, Scene, Shot][i] && layer.scopeID != ""
      && CompleteRef(layer.revision) && layer.revision.kind == "context"
      && (forall key :: key in layer.values ==>
            && layer.scope in policy.allowedKeys && key in policy.allowedKeys[layer.scope]
            && !rules.sensitive(key) && rules.normalize(layer.values[key]) != "")
      && (forall alias :: alias in layer.assetBindings ==>
            var id := layer.assetBindings[alias];
            && id != "" && !Latest(id) && id in assets
            && (alias !in below || below[alias] == id
                || (layer.scope in policy.allowedAssetOverride && alias in policy.allowedAssetOverride[layer.scope])))
  {
    hide CompleteRef, Latest, Bindings;
  }

  /** The word in any mixture of cases. */
  lemma LatestMeans(id: string)
    ensures Latest(id) <==>
      |id| == 6 && forall i :: 0 <= i < 6 ==> id[i] in ["lL", "aA", "tT", "eE", "sS\U{017F}", "tT"][i]
  {
  }

  /** What is asked of an asset. */
  lemma AssetsMustBeComplete(asset: Asset)
    ensures asset.Valid() <==>
      && CompleteRef(asset.revision) && (asset.revision.kind, asset.authorized, asset.active) == ("asset", true, true)
      && (forall text :: text in [asset.assetID, asset.uri, asset.mediaType, asset.licenseReference, asset.approvalID] ==> !Blank(text))
      && "" !in [asset.kind, asset.defaultRole] && asset.uri == "cas://sha256/" + asset.revision.contentHash
  {
    hide CompleteRef, Blank;
  }

  // ---- Merging one entry at a time ----

  lemma NothingMerged(rules: Rules, layer: Layer, values: map<string, string>, origins: map<string, Scope>)
    ensures values + Normalized(rules, layer, {}) == values && origins + Sources(layer, {}) == origins
  {
  }

  lemma NothingBound(layer: Layer, bindings: map<string, string>)
    ensures bindings + Bound(layer, {}) == bindings
    ensures Bound(layer, layer.assetBindings.Keys) == layer.assetBindings
  {
  }

  lemma OneMoreValue(
      rules: Rules, layer: Layer, values: map<string, string>, origins: map<string, Scope>, done: set<string>, key: string)
    requires done <= layer.values.Keys && key in layer.values
    ensures values + Normalized(rules, layer, done + {key})
         == (values + Normalized(rules, layer, done))[key := rules.normalize(layer.values[key])]
    ensures origins + Sources(layer, done + {key}) == (origins + Sources(layer, done))[key := layer.scope]
  {
  }

  lemma OneMoreBinding(layer: Layer, bindings: map<string, string>, done: set<string>, alias: string)
    requires done <= layer.assetBindings.Keys && alias in layer.assetBindings && alias !in done
    ensures bindings + Bound(layer, done + {alias}) == (bindings + Bound(layer, done))[alias := layer.assetBindings[alias]]
    ensures alias in bindings + Bound(layer, done) <==> alias in bindings
    ensures alias in bindings ==> (bindings + Bound(layer, done))[alias] == bindings[alias]
  {
  }

  lemma BindingFitsMeans(
      policy: ResolverPolicy, assets: map<string, Asset>, prior: map<string, string>, layer: Layer, done: set<string>, alias: string)
    requires alias in layer.assetBindings && done <= layer.assetBindings.Keys
    requires BindingsFit(policy, assets, prior, layer, done)
    ensures var fits :=
        && Known(assets, layer.assetBindings[alias])
        && (alias in prior && prior[alias] != layer.assetBindings[alias] ==> policy.AllowsOverride(layer.scope, alias));
      && (fits ==> BindingsFit(policy, assets, prior, layer, done + {alias}))
      && (!fits ==> !BindingsFit(policy, assets, prior, layer, layer.assetBindings.Keys))
  {
    hide Known;
    if !BindingFits(policy, assets, prior, layer, alias) {
      assert alias in layer.assetBindings.Keys;
    }
  }

  lemma OneMoreAsset(assets: map<string, Asset>, bound: map<string, string>, alias: string, id: string)
    requires Known(assets, id)
    ensures AssetsOf(assets, bound[alias := id]) == AssetsOf(assets, bound)[alias := assets[id].ProviderRef(assets[id].defaultRole)]
  {
  }

  // ---- The resolver ----

  class ContextResolver {
    const policy: ResolverPolicy
    const rules: Rules
    const catalog: AssetCatalog?

    constructor (rules: Rules, catalog: AssetCatalog?)
      ensures this.policy == DEFAULT_POLICY && this.rules == rules && this.catalog == catalog
    {
      this.policy, this.rules, this.catalog := DEFAULT_POLICY, rules, catalog;
    }

    /** Takes over one layer's values, in whatever order they come. */
    method MergeValues(layer: Layer, values: map<string, string>, origins: map<string, Scope>)
      returns (r: Result<(map<string, string>, map<string, Scope>), Failure>)
      ensures r.Ok? <==> ValuesFit(policy, rules, layer, layer.values.Keys)
      ensures r.Ok? ==> r.value == (values + Normalized(rules, layer, layer.values.Keys), origins + Sources(layer, layer.values.Keys))
    {
      var merged, sources := values, origins;
      hide Normalized, Sources, ResolverPolicy.AllowsKey;
      var keys, done := layer.values.Keys, {};
      NothingMerged(rules, layer, values, origins);
      while done != keys
        invariant done <= keys && ValuesFit(policy, rules, layer, done)
        invariant merged == values + Normalized(rules, layer, done) && sources == origins + Sources(layer, done)
        decreases |keys - done|
      {
        var key :| key in keys - done;
        var value := layer.values[key];
        if !policy.AllowsKey(layer.scope, key) {
          return Err(Policy);
        }
        if rules.sensitive(key) {
          return Err(Policy);
        }
        value := rules.normalize(value);
        if value == "" {
          return Err(Validation);
        }
        OneMoreValue(rules, layer, values, origins, done, key);
        merged := merged[key := value];
        sources := sources[key := layer.scope];
        done := done + {key};
        assert keys - done < keys - (done - {key});
      }
      r := Ok((merged, sources));
    }

    /** Takes over one layer's asset bindings; their order does not matter either. */
    method MergeAssets(layer: Layer, bindings: map<string, string>, assets: map<string, AssetRef>, known: AssetCatalog)
      returns (r: Result<(map<string, string>, map<string, AssetRef>), Failure>)
      requires known.Valid() && assets == AssetsOf(known.byRevision, bindings)
      ensures r.Ok? <==> BindingsFit(policy, known.byRevision, bindings, layer, layer.assetBindings.Keys)
      ensures r.Ok? ==>
        && r.value.0 == bindings + layer.assetBindings
        && r.value.1 == AssetsOf(known.byRevision, r.value.0)
    {
      hide AssetCatalog.Valid, AssetsOf, ResolverPolicy.AllowsOverride, Bound, Known, BindingFits;
      ghost var all := known.byRevision;
      var bound, refs := bindings, assets;
      var aliases, done := layer.assetBindings.Keys, {};
      NothingBound(layer, bindings);
      while done != aliases
        invariant done <= aliases && BindingsFit(policy, all, bindings, layer, done)
        invariant bound == bindings + Bound(layer, done) && refs == AssetsOf(all, bound)
        decreases |aliases - done|
      {
        hide BindingsFit;
        var alias :| alias in aliases - done;
        var revisionID := layer.assetBindings[alias];
        OneMoreBinding(layer, bindings, done, alias);
        BindingFitsMeans(policy, all, bindings, layer, done, alias);
        if alias in bound && bound[alias] != revisionID && !policy.AllowsOverride(layer.scope, alias) {
          return Err(Conflict);
        }
        var asset := known.Resolve(revisionID);
        if asset.Err? {
          return Err(asset.error);
        }
        OneMoreAsset(all, bound, alias, revisionID);
        bound := bound[alias := revisionID];
        refs := refs[alias := asset.value.ProviderRef(asset.value.defaultRole)];
        done := done + {alias};
        assert aliases - done < aliases - (done - {alias});
      }
      r := Ok((bound, refs));
    }

    /** Succeeds exactly on resolvable layers, and then with their fold. */
    method Resolve(layers: seq<Layer>) returns (r: Result<EffectiveContext, Failure>)
      requires catalog != null ==> catalog.Valid()
      ensures r.Ok? <==> catalog != null && Resolvable(policy, rules, catalog.byRevision, layers)
      ensures r.Ok? ==> r.value == Folded(rules, catalog.byRevision, layers)
    {
      hide LayerFits, Folded, Values, Origins, Hashes, Bindings, AssetsOf, HeadFits, ValuesFit, BindingsFit, AssetCatalog.Valid;
      if catalog == null {
        return Err(Validation);
      }
      if |layers| != |ORDERED| {
        return Err(Validation);
      }
      ghost var all := catalog.byRevision;
      var values, origins, hashes := map[], map[], map[];
      var bindings: map<string, string>, assets := map[], map[];
      NothingFolded(rules, all, layers);
      var index := 0;
      while index < |ORDERED|
        invariant 0 <= index <= |ORDERED|
        invariant forall i :: 0 <= i < index ==> LayerFits(policy, rules, all, layers, i)
        invariant values == Values(rules, layers[..index]) && origins == Origins(layers[..index])
        invariant hashes == Hashes(layers[..index]) && bindings == Bindings(layers[..index])
        invariant assets == AssetsOf(all, bindings)
      {
        var layer := layers[index];
        FoldsOneMore(rules, layers, index);
        LayerFitsMeans(policy, rules, all, layers, index);
        if !HeadFits(layer, ORDERED[index]) {
          return Err(Validation);
        }
        hashes := hashes[layer.scope := layer.revision.contentHash];
        var merged := MergeValues(layer, values, origins);
        if merged.Err? {
          return Err(merged.error);
        }
        values, origins := merged.value.0, merged.value.1;
        var bound := MergeAssets(layer, bindings, assets, catalog);
        if bound.Err? {
          return Err(bound.error);
        }
        bindings, assets := bound.value.0, bound.value.1;
        index := index + 1;
      }
      assert layers[..index] == layers;
      FoldedMeans(rules, all, layers);
      r := Ok(EffectiveContext([layers[0].revision.id, layers[1].revision.id, layers[2].revision.id, layers[3].revision.id],
                               hashes, values, origins, assets));
    }
  }

  lemma NothingFolded(rules: Rules, assets: map<string, Asset>, layers: seq<Layer>)
    ensures Values(rules, layers[..0]) == map[] && Origins(layers[..0]) == map[] && Hashes(layers[..0]) == map[]
    ensures Bindings(layers[..0]) == map[] && AssetsOf(assets, map[]) == map[]
  {
  }

  lemma FoldedMeans(rules: Rules, assets: map<string, Asset>, layers: seq<Layer>)
    requires |layers| == 4
    ensures Folded(rules, assets, layers) == EffectiveContext(
              [layers[0].revision.id, layers[1].revision.id, layers[2].revision.id, layers[3].revision.id],
              Hashes(layers), Values(rules, layers), Origins(layers), AssetsOf(assets, Bindings(layers)))
  {
    hide Hashes, Values, Origins, AssetsOf, Bindings;
    assert Folded(rules, assets, layers).revisions
        == [layers[0].revision.id, layers[1].revision.id, layers[2].revision.id, layers[3].revision.id];
  }

  lemma LayerFitsMeans(policy: ResolverPolicy, rules: Rules, assets: map<string, Asset>, layers: seq<Layer>, i: nat)
    requires i < |layers| && i < |ORDERED|
    ensures LayerFits(policy, rules, assets, layers, i) <==>
              (&& HeadFits(layers[i], ORDERED[i])
               && ValuesFit(policy, rules, layers[i], layers[i].values.Keys)
               && BindingsFit(policy, assets, Bindings(layers[..i]), layers[i], layers[i].assetBindings.Keys))
  {
    hide HeadFits, ValuesFit, BindingsFit, Bindings;
  }

  lemma FoldsOneMore(rules: Rules, layers: seq<Layer>, i: nat)
    requires i < |layers|
    ensures layers[..i + 1] == layers[..i] + [layers[i]]
    ensures Values(rules, layers[..i + 1]) == Values(rules, layers[..i]) + Normalized(rules, layers[i], layers[i].values.Keys)
    ensures Origins(layers[..i + 1]) == Origins(layers[..i]) + Sources(layers[i], layers[i].values.Keys)
    ensures Bindings(layers[..i + 1]) == Bindings(layers[..i]) + layers[i].assetBindings
    ensures Hashes(layers[..i + 1]) == Hashes(layers[..i])[layers[i].scope := layers[i].revision.contentHash]
  {
    var init := layers[..i + 1];
    assert init[..|init| - 1] == layers[..i] && init[|init| - 1] == layers[i];
  }

  // ---- What the fold means ----

  /** A key has the value and the origin of the deepest layer that sets it. */
  lemma {:induction false} DeepestLayerWins(rules: Rules, layers: seq<Layer>, key: string, i: nat)
    requires i < |layers| && key in layers[i].values
    requires forall j :: i < j < |layers| ==> key !in layers[j].values
    ensures key in Values(rules, layers) && Values(rules, layers)[key] == rules.normalize(layers[i].values[key])
    ensures key in Origins(layers) && Origins(layers)[key] == layers[i].scope
  {
    if i < |layers| - 1 {
      DeepestLayerWins(rules, layers[..|layers| - 1], key, i);
    }
  }

  /** Nothing else is set. */
  lemma {:induction false} OnlySetKeysAppear(rules: Rules, layers: seq<Layer>, key: string)
    ensures key in Values(rules, layers) <==> exists i :: 0 <= i < |layers| && key in layers[i].values
    ensures key in Values(rules, layers) <==> key in Origins(layers)
  {
    if layers != [] {
      var init := layers[..|layers| - 1];
      OnlySetKeysAppear(rules, init, key);
      assert forall i :: 0 <= i < |init| ==> init[i] == layers[i];
    }
  }

  /** The deepest binding below layer n is the one Bindings has. */
  lemma {:induction false} BindingsHaveTheDeepest(layers: seq<Layer>, alias: string, i: nat)
    requires i < |layers| && alias in layers[i].assetBindings
    requires forall j :: i < j < |layers| ==> alias !in layers[j].assetBindings
    ensures alias in Bindings(layers) && Bindings(layers)[alias] == layers[i].assetBindings[alias]
  {
    if i < |layers| - 1 {
      BindingsHaveTheDeepest(layers[..|layers| - 1], alias, i);
    }
  }

  /** A bound asset is named by its exact revision and pinned content, and plays its default role unless given another. */
  lemma ContextsNameTheirAssets(
      policy: ResolverPolicy, rules: Rules, assets: map<string, Asset>, layers: seq<Layer>, alias: string, i: nat,
      role: string)
    requires Resolvable(policy, rules, assets, layers) && i < |layers| && alias in layers[i].assetBindings
    requires forall j :: i < j < |layers| ==> alias !in layers[j].assetBindings
    requires forall id :: id in assets ==> assets[id].revision.id == id && assets[id].Valid()
    ensures layers[i].assetBindings[alias] in assets && alias in Folded(rules, assets, layers).assets
    ensures var asset, named := assets[layers[i].assetBindings[alias]], Folded(rules, assets, layers).assets[alias];
      && named.id == asset.assetID && named.revision == layers[i].assetBindings[alias] && named.kind == asset.kind
      && named.role == asset.defaultRole && named.sha256 == asset.revision.contentHash
      && named.uri == "cas://sha256/" + named.sha256
      && named.license == asset.licenseReference && named.mediaType == asset.mediaType
      && asset.ProviderRef(role) == if role == "" then named else named.(role := role)
  {
    hide Resolvable, LayerFits, Bindings;
    BindingsHaveTheDeepest(layers, alias, i);
    BoundAssetsAreKnown(policy, rules, assets, layers, alias, i);
    assert Folded(rules, assets, layers).assets == AssetsOf(assets, Bindings(layers));
  }

  lemma BoundAssetsAreKnown(
      policy: ResolverPolicy, rules: Rules, assets: map<string, Asset>, layers: seq<Layer>, alias: string, i: nat)
    requires Resolvable(policy, rules, assets, layers) && i < |layers| && alias in layers[i].assetBindings
    ensures Known(assets, layers[i].assetBindings[alias])
  {
    hide HeadFits, ValuesFit;
    assert LayerFits(policy, rules, assets, layers, i);
    assert BindingFits(policy, assets, Bindings(layers[..i]), layers[i], alias);
  }

  /** Nothing else is named. */
  lemma OnlyBoundAssetsAppear(rules: Rules, assets: map<string, Asset>, layers: seq<Layer>, alias: string)
    requires alias in Folded(rules, assets, layers).assets
    ensures exists i :: 0 <= i < |layers| && alias in layers[i].assetBindings
  {
    hide Bindings;
    assert Folded(rules, assets, layers).assets == AssetsOf(assets, Bindings(layers));
    BindingsComeFromLayers(layers, alias);
  }

  lemma {:induction false} BindingsComeFromLayers(layers: seq<Layer>, alias: string)
    ensures alias in Bindings(layers) <==> exists i :: 0 <= i < |layers| && alias in layers[i].assetBindings
  {
    if layers != [] {
      var init := layers[..|layers| - 1];
      BindingsComeFromLayers(init, alias);
      assert forall i :: 0 <= i < |init| ==> init[i] == layers[i];
    }
  }

  /** The context carries the four layers' revisions in order, and the content hash of each scope's layer. */
  lemma ContextsPinTheirLayers(
      policy: ResolverPolicy, rules: Rules, assets: map<string, Asset>, layers: seq<Layer>, i: nat)
    requires Resolvable(policy, rules, assets, layers) && i < |layers|
    ensures |Folded(rules, assets, layers).revisions| == |layers|
    ensures Folded(rules, assets, layers).revisions[i] == layers[i].revision.id
    ensures forall scope: Scope :: scope in Folded(rules, assets, layers).revisionHashes
    ensures layers[i].scope in Folded(rules, assets, layers).revisionHashes
         && Folded(rules, assets, layers).revisionHashes[layers[i].scope] == layers[i].revision.contentHash
  {
    hide ValuesFit, BindingsFit, AssetsOf, Bindings, Values, Origins, Hashes;
    forall k | 0 <= k < |layers| ensures layers[k].scope == ORDERED[k] {
      assert LayerFits(policy, rules, assets, layers, k);
    }
    assert Folded(rules, assets, layers).revisionHashes == Hashes(layers);
    HashesHaveTheDeepest(layers, 0);
    HashesHaveTheDeepest(layers, 1);
    HashesHaveTheDeepest(layers, 2);
    HashesHaveTheDeepest(layers, 3);
    forall scope: Scope ensures scope in Hashes(layers) {
      var k := match scope case Series => 0 case Episode => 1 case Scene => 2 case Shot => 3;
      assert layers[k].scope == scope;
    }
  }

  lemma {:induction false} HashesHaveTheDeepest(layers: seq<Layer>, i: nat)
    requires i < |layers| && forall j :: i < j < |layers| ==> layers[j].scope != layers[i].scope
    ensures layers[i].scope in Hashes(layers) && Hashes(layers)[layers[i].scope] == layers[i].revision.contentHash
  {
    if i < |layers| - 1 {
      HashesHaveTheDeepest(layers[..|layers| - 1], i);
    }
  }

  /** In resolvable layers, an alias no layer may override names one revision wherever it is bound. */
  lemma {:induction false} AliasesNameOneRevision(
      policy: ResolverPolicy, rules: Rules, assets: map<string, Asset>, layers: seq<Layer>, alias: string, i: nat, j: nat)
    requires Resolvable(policy, rules, assets, layers) && i <= j < |layers|
    requires alias in layers[i].assetBindings && alias in layers[j].assetBindings
    requires forall k :: i < k <= j ==> !policy.AllowsOverride(layers[k].scope, alias)
    ensures layers[i].assetBindings[alias] == layers[j].assetBindings[alias]
    decreases j
  {
    if i < j {
      var k := LastBinding(layers[..j], alias, i);
      AliasesNameOneRevision(policy, rules, assets, layers, alias, i, k);
      BindingsHaveTheDeepest(layers[..j], alias, k);
      assert LayerFits(policy, rules, assets, layers, j);
      assert BindingFits(policy, assets, Bindings(layers[..j]), layers[j], alias);
    }
  }

  lemma {:induction false} LastBinding(layers: seq<Layer>, alias: string, i: nat) returns (k: nat)
    requires i < |layers| && alias in layers[i].assetBindings
    ensures i <= k < |layers| && alias in layers[k].assetBindings
    ensures forall j :: k < j < |layers| ==> alias !in layers[j].assetBindings
  {
    var n := |layers| - 1;
    if i == n || alias in layers[n].assetBindings {
      k := n;
    } else {
      k := LastBinding(layers[..n], alias, i);
    }
  }

  /** Under the default policy only a shot may rebind an alias, and only the primary character or prop. */
  lemma OnlyShotsRebind(rules: Rules, assets: map<string, Asset>, layers: seq<Layer>, alias: string, i: nat, j: nat)
    requires Resolvable(DEFAULT_POLICY, rules, assets, layers) && i <= j < |layers|
    requires alias in layers[i].assetBindings && alias in layers[j].assetBindings
    requires layers[i].assetBindings[alias] != layers[j].assetBindings[alias]
    ensures layers[j].scope == Shot && alias in {"character.primary", "prop.primary"}
  {
    if !(layers[j].scope == Shot && alias in {"character.primary", "prop.primary"}) {
      forall k | 0 <= k < |layers| ensures layers[k].scope == ORDERED[k] {
        assert LayerFits(DEFAULT_POLICY, rules, assets, layers, k);
      }
      AliasesNameOneRevision(DEFAULT_POLICY, rules, assets, layers, alias, i, j);
    }
  }
}
