/**
 * The output table of the build-output merge, as values. Every path maps to an
 * entry; an override entry holds the id of a record in an arena, so that the
 * canonical path of an override and each of its aliases share ONE record and a
 * change to that record is seen through all of them.
 */
module BuildOutput {
  import opened Wrappers

  type Headers = map<string, string>

  /** A build output item, as the request-time router reads it. */
  datatype Item =
    | Static
    | Function(entrypoint: string)
    | Middleware(entrypoint: string)
    | Override(path: string, headers: Headers)

  /** The record that an override's canonical path and all its aliases share. */
  datatype OverrideRecord = OverrideRecord(path: string, headers: Headers)

  /** What the table stores under a path: a plain item, or the id of a shared override record. */
  datatype Entry =
    | StaticEntry
    | FunctionEntry(entrypoint: string)
    | MiddlewareEntry(entrypoint: string)
    | OverrideRef(id: nat)

  /** The arena of override records and the path-keyed table. */
  datatype Table = Table(records: seq<OverrideRecord>, keys: map<string, Entry>)

  /** An override declared in the config, keyed by the asset's file name. */
  datatype OverrideSpec = OverrideSpec(path: string, contentType: string)

  /** Prerendered data for one asset: its headers and the alias paths that serve it. */
  datatype PrerenderedFileData = PrerenderedFileData(headers: Headers, overrides: seq<string>)

  const Empty: Table := Table([], map[])

  /** Every override entry names a record of the arena. */
  predicate Valid(t: Table) {
    forall k :: k in t.keys && t.keys[k].OverrideRef? ==> t.keys[k].id < |t.records|
  }

  function Resolve(t: Table, e: Entry): Item
    requires e.OverrideRef? ==> e.id < |t.records|
  {
    match e
    case StaticEntry => Static
    case FunctionEntry(p) => Function(p)
    case MiddlewareEntry(p) => Middleware(p)
    case OverrideRef(id) => Override(t.records[id].path, t.records[id].headers)
  }

  /** The table as the router sees it: each path with the item it resolves to. */
  function View(t: Table): (v: map<string, Item>)
    requires Valid(t)
    ensures v.Keys == t.keys.Keys
  {
    map k | k in t.keys :: Resolve(t, t.keys[k])
  }

  // ---------------------------------------------------------------------------
  // Seeding the assets

  function SeedAsset(t: Table, path: string): Table {
    if path in t.keys then t else Table(t.records, t.keys[path := StaticEntry])
  }

  /** Every asset path is added as a static entry; entries already present are kept. */
  function SeedAssets(t: Table, assets: seq<string>): (r: Table)
    requires Valid(t)
    ensures Valid(r)
    ensures r.records == t.records
    ensures r.keys.Keys == t.keys.Keys + set a | a in assets
    ensures forall k :: k in t.keys ==> r.keys[k] == t.keys[k]
    ensures forall k :: k in r.keys && k !in t.keys ==> r.keys[k] == StaticEntry
    decreases |assets|
  {
    if assets == [] then t
    else SeedAsset(SeedAssets(t, assets[..|assets| - 1]), assets[|assets| - 1])
  }

  // ---------------------------------------------------------------------------
  // Seeding the functions

  /** The reserved function path of the middleware. */
  const MiddlewarePath: string := "/middleware"

  /** The middleware is keyed without its leading slash, as route rules reference it; every
      other function keeps its path verbatim, and no function is keyed `/middleware`. */
  function FunctionKey(logical: string): (k: string)
    ensures logical == MiddlewarePath ==> "/" + k == logical
    ensures logical != MiddlewarePath ==> k == logical
    ensures k != MiddlewarePath
  {
    if logical == MiddlewarePath then "middleware" else logical
  }

  /** What a function is registered as: the middleware for `/middleware`, a plain function
      otherwise, carrying its entrypoint either way. */
  function FunctionSlot(logical: string, entrypoint: string): (e: Entry)
    ensures e.FunctionEntry? || e.MiddlewareEntry?
    ensures e.MiddlewareEntry? <==> logical == MiddlewarePath
    ensures e.entrypoint == entrypoint
  {
    if logical == MiddlewarePath then MiddlewareEntry(entrypoint) else FunctionEntry(entrypoint)
  }

  function SeedFunction(t: Table, f: (string, string)): Table {
    Table(t.records, t.keys[FunctionKey(f.0) := FunctionSlot(f.0, f.1)])
  }

  /** The output keys the functions of `fns` are registered under. */
  function FunctionKeys(fns: seq<(string, string)>): set<string>
    decreases |fns|
  {
    if fns == [] then {} else FunctionKeys(fns[..|fns| - 1]) + {FunctionKey(fns[|fns| - 1].0)}
  }

  /** Every function is registered under its output key; nothing else changes. */
  function SeedFunctions(t: Table, fns: seq<(string, string)>): (r: Table)
    requires Valid(t)
    ensures Valid(r)
    ensures r.records == t.records
    ensures r.keys.Keys == t.keys.Keys + FunctionKeys(fns)
    ensures forall k :: k in t.keys && k !in FunctionKeys(fns) ==> r.keys[k] == t.keys[k]
    decreases |fns|
  {
    if fns == [] then t
    else SeedFunction(SeedFunctions(t, fns[..|fns| - 1]), fns[|fns| - 1])
  }

  /** Entry `i` is the last one of `fns` that writes its output key. */
  predicate LastWrite(fns: seq<(string, string)>, i: nat)
    requires i < |fns|
  {
    forall j :: i < j < |fns| ==> FunctionKey(fns[j].0) != FunctionKey(fns[i].0)
  }

  /** When several functions share an output key, the last one in `fns` is the one registered. */
  lemma {:induction false} LastWriteWins(t: Table, fns: seq<(string, string)>, i: nat)
    requires Valid(t) && i < |fns| && LastWrite(fns, i)
    ensures FunctionKey(fns[i].0) in SeedFunctions(t, fns).keys
    ensures SeedFunctions(t, fns).keys[FunctionKey(fns[i].0)] == FunctionSlot(fns[i].0, fns[i].1)
    decreases |fns|
  {
    var prefix, last := fns[..|fns| - 1], fns[|fns| - 1];
    assert SeedFunctions(t, fns) == SeedFunction(SeedFunctions(t, prefix), last);
    if i < |fns| - 1 {
      assert prefix[i] == fns[i];
      assert LastWrite(prefix, i) by {
        forall j | i < j < |prefix| ensures FunctionKey(prefix[j].0) != FunctionKey(prefix[i].0) {
          assert prefix[j] == fns[j];
        }
      }
      LastWriteWins(t, prefix, i);
      assert FunctionKey(last.0) != FunctionKey(fns[i].0);
    }
  }

  // ---------------------------------------------------------------------------
  // Applying the config overrides

  /** The served path's last segment is `index`: the root path is an alias as well. The
      served path is then `/index` behind some prefix, and never the root itself. */
  function IsIndexAlias(served: string): (b: bool)
    ensures b <==> |served| >= 6 && served == served[..|served| - 6] + "/index"
    ensures b ==> served != "/"
  {
    |served| >= 6 && served[|served| - 6..] == "/index"
  }

  /** One override: the asset `/file` becomes an override record with a content-type header,
      and `/path` (and `/` for an index page) become aliases of that same record. */
  function OverrideStep(t: Table, file: string, o: OverrideSpec): (r: Table)
    requires Valid(t)
    ensures Valid(r)
  {
    var asset := "/" + file;
    if asset !in t.keys then t
    else
      var ref := OverrideRef(|t.records|);
      var served := "/" + o.path;
      var keys := t.keys[asset := ref][served := ref];
      Table(t.records + [OverrideRecord(asset, map["content-type" := o.contentType])],
            if IsIndexAlias(served) then keys["/" := ref] else keys)
  }

  /** The paths one override may write. */
  function StepTargets(file: string, o: OverrideSpec): set<string> {
    {"/" + file, "/" + o.path} + (if IsIndexAlias("/" + o.path) then {"/"} else {})
  }

  function OverrideTargets(ovs: seq<(string, OverrideSpec)>): set<string>
    decreases |ovs|
  {
    if ovs == [] then {}
    else OverrideTargets(ovs[..|ovs| - 1]) + StepTargets(ovs[|ovs| - 1].0, ovs[|ovs| - 1].1)
  }

  /** Arena records are never edited by overrides, only appended. */
  predicate Extends(t: Table, r: Table) {
    |t.records| <= |r.records| && r.records[..|t.records|] == t.records
  }

  /** The overrides in declared order: keys only grow, only the override targets change,
      and the arena only grows. */
  function ApplyOverrides(t: Table, ovs: seq<(string, OverrideSpec)>): (r: Table)
    requires Valid(t)
    ensures Valid(r)
    ensures Extends(t, r)
    ensures t.keys.Keys <= r.keys.Keys <= t.keys.Keys + OverrideTargets(ovs)
    ensures forall k :: k in t.keys && k !in OverrideTargets(ovs) ==> r.keys[k] == t.keys[k]
    decreases |ovs|
  {
    if ovs == [] then t
    else
      var last := ovs[|ovs| - 1];
      var mid := ApplyOverrides(t, ovs[..|ovs| - 1]);
      var r := OverrideStep(mid, last.0, last.1);
      assert r.records[..|t.records|] == mid.records[..|t.records|];
      r
  }

  // ---------------------------------------------------------------------------
  // Applying the prerendered data

  /** Every path of `paths` is pointed at `e`; every other key is kept. */
  function PointAll(keys: map<string, Entry>, paths: seq<string>, e: Entry): (r: map<string, Entry>)
    ensures r.Keys == keys.Keys + set p | p in paths
    ensures forall p :: p in paths ==> r[p] == e
    ensures forall k :: k in keys && k !in paths ==> r[k] == keys[k]
    decreases |paths|
  {
    if paths == [] then keys
    else PointAll(keys, paths[..|paths| - 1], e)[paths[|paths| - 1] := e]
  }

  /** One prerendered entry: the headers of the entry's record are REPLACED (an existing
      override) or the static entry becomes an override record; then every alias of the
      entry points at that same record. */
  function PrerenderStep(t: Table, path: string, d: PrerenderedFileData): (r: Table)
    requires Valid(t)
    ensures Valid(r)
  {
    if path !in t.keys then t
    else
      match t.keys[path]
      case OverrideRef(id) =>
        Table(t.records[id := t.records[id].(headers := d.headers)],
              PointAll(t.keys, d.overrides, OverrideRef(id)))
      case StaticEntry =>
        var ref := OverrideRef(|t.records|);
        Table(t.records + [OverrideRecord(path, d.headers)], PointAll(t.keys[path := ref], d.overrides, ref))
      case _ => t
  }

  /** The paths one prerendered entry may write: its own path and its aliases. */
  function PrerenderTargets(pre: seq<(string, PrerenderedFileData)>): set<string>
    decreases |pre|
  {
    if pre == [] then {}
    else
      var last := pre[|pre| - 1];
      PrerenderTargets(pre[..|pre| - 1]) + {last.0} + set p | p in last.1.overrides
  }

  /** The prerendered entries in declared order: keys only grow, and only the prerender
      targets are re-pointed. */
  function ApplyPrerendered(t: Table, pre: seq<(string, PrerenderedFileData)>): (r: Table)
    requires Valid(t)
    ensures Valid(r)
    ensures |t.records| <= |r.records|
    ensures t.keys.Keys <= r.keys.Keys <= t.keys.Keys + PrerenderTargets(pre)
    ensures forall k :: k in t.keys && k !in PrerenderTargets(pre) ==> r.keys[k] == t.keys[k]
    decreases |pre|
  {
    if pre == [] then t
    else
      var last := pre[|pre| - 1];
      PrerenderStep(ApplyPrerendered(t, pre[..|pre| - 1]), last.0, last.1)
  }

  /** The whole output table: assets, then functions, then overrides, then prerendered data. */
  function Output(assets: seq<string>, fns: seq<(string, string)>,
                  ovs: seq<(string, OverrideSpec)>, pre: seq<(string, PrerenderedFileData)>): (r: Table)
    ensures Valid(r)
    ensures (set a | a in assets) + FunctionKeys(fns) <= r.keys.Keys
    ensures r.keys.Keys <= (set a | a in assets) + FunctionKeys(fns) + OverrideTargets(ovs) + PrerenderTargets(pre)
  {
    ApplyPrerendered(ApplyOverrides(SeedFunctions(SeedAssets(Empty, assets), fns), ovs), pre)
  }

  // ---------------------------------------------------------------------------
  // Each stage, one entry further

  lemma SeedAssetsNext(t: Table, assets: seq<string>, i: nat)
    requires Valid(t) && i < |assets|
    ensures SeedAssets(t, assets[..i + 1]) == SeedAsset(SeedAssets(t, assets[..i]), assets[i])
  {
    assert assets[..i + 1][..i] == assets[..i];
  }

  lemma SeedFunctionsNext(t: Table, fns: seq<(string, string)>, i: nat)
    requires Valid(t) && i < |fns|
    ensures SeedFunctions(t, fns[..i + 1]) == SeedFunction(SeedFunctions(t, fns[..i]), fns[i])
  {
    assert fns[..i + 1][..i] == fns[..i];
  }

  lemma ApplyOverridesNext(t: Table, ovs: seq<(string, OverrideSpec)>, i: nat)
    requires Valid(t) && i < |ovs|
    ensures ApplyOverrides(t, ovs[..i + 1]) == OverrideStep(ApplyOverrides(t, ovs[..i]), ovs[i].0, ovs[i].1)
  {
    assert ovs[..i + 1][..i] == ovs[..i];
  }

  lemma PointAllNext(keys: map<string, Entry>, paths: seq<string>, i: nat, e: Entry)
    requires i < |paths|
    ensures PointAll(keys, paths[..i + 1], e) == PointAll(keys, paths[..i], e)[paths[i] := e]
  {
    assert paths[..i + 1][..i] == paths[..i];
  }

  lemma ApplyPrerenderedNext(t: Table, pre: seq<(string, PrerenderedFileData)>, i: nat)
    requires Valid(t) && i < |pre|
    ensures ApplyPrerendered(t, pre[..i + 1]) == PrerenderStep(ApplyPrerendered(t, pre[..i]), pre[i].0, pre[i].1)
  {
    assert pre[..i + 1][..i] == pre[..i];
  }

  /** The overrides can be applied in two runs: the second run starts from the table the
      first one leaves, so a result about one override carries over to the whole list. */
  lemma {:induction false} ApplyOverridesConcat(t: Table, a: seq<(string, OverrideSpec)>,
                                                b: seq<(string, OverrideSpec)>)
    requires Valid(t)
    ensures ApplyOverrides(t, a + b) == ApplyOverrides(ApplyOverrides(t, a), b)
    decreases |b|
  {
    if b == [] {
      assert a + b == a;
    } else {
      var init := b[..|b| - 1];
      ApplyOverridesConcat(t, a, init);
      assert (a + b)[..|a + b| - 1] == a + init;
      assert (a + b)[|a + b| - 1] == b[|b| - 1];
    }
  }

  /** The prerendered entries can be applied in two runs, the second from the table the
      first one leaves. */
  lemma {:induction false} ApplyPrerenderedConcat(t: Table, a: seq<(string, PrerenderedFileData)>,
                                                  b: seq<(string, PrerenderedFileData)>)
    requires Valid(t)
    ensures ApplyPrerendered(t, a + b) == ApplyPrerendered(ApplyPrerendered(t, a), b)
    decreases |b|
  {
    if b == [] {
      assert a + b == a;
    } else {
      var init := b[..|b| - 1];
      ApplyPrerenderedConcat(t, a, init);
      assert (a + b)[..|a + b| - 1] == a + init;
      assert (a + b)[|a + b| - 1] == b[|b| - 1];
    }
  }

  // ---------------------------------------------------------------------------
  // What the stages promise

  /** An override makes the asset key and its served-path alias (and `/` for an index page)
      point at ONE new record whose path is the asset key and whose only header is the
      content type; every other key resolves as before. */
  lemma OverrideSharesRecord(t: Table, file: string, o: OverrideSpec)
    requires Valid(t) && "/" + file in t.keys
    ensures var r := OverrideStep(t, file, o);
      && r.keys.Keys == t.keys.Keys + StepTargets(file, o)
      && r.keys["/" + file] == OverrideRef(|t.records|)
      && r.keys["/" + o.path] == r.keys["/" + file]
      && (IsIndexAlias("/" + o.path) ==> r.keys["/"] == r.keys["/" + file])
      && View(r)["/" + file] == Override("/" + file, map["content-type" := o.contentType])
      && forall k :: k in t.keys && k !in StepTargets(file, o) ==> View(r)[k] == View(t)[k]
  {
    var asset, served, ref := "/" + file, "/" + o.path, OverrideRef(|t.records|);
    var r := OverrideStep(t, file, o);
    var keys := t.keys[asset := ref][served := ref];
    assert r.records == t.records + [OverrideRecord(asset, map["content-type" := o.contentType])];
    assert r.keys == if IsIndexAlias(served) then keys["/" := ref] else keys;
    assert IsIndexAlias(served) ==> served != "/";
    assert r.keys[asset] == ref && r.keys[served] == ref;
    OverrideStepFrame(t, file, o);
  }

  lemma OverrideStepFrame(t: Table, file: string, o: OverrideSpec)
    requires Valid(t) && "/" + file in t.keys
    ensures var r := OverrideStep(t, file, o);
      forall k :: k in t.keys && k !in StepTargets(file, o) ==> View(r)[k] == View(t)[k]
  {
    var r := OverrideStep(t, file, o);
    forall k | k in t.keys && k !in StepTargets(file, o) ensures View(r)[k] == View(t)[k] {
      assert r.keys[k] == t.keys[k];
      if t.keys[k].OverrideRef? {
        assert r.records[t.keys[k].id] == t.records[t.keys[k].id];
      }
    }
  }

  /** The declared aliases of a prerendered override are added, on that override's record. */
  lemma PrerenderOverrideAliases(t: Table, path: string, d: PrerenderedFileData)
    requires Valid(t) && path in t.keys && t.keys[path].OverrideRef?
    ensures var r, id := PrerenderStep(t, path, d), t.keys[path].id;
      && r.keys.Keys == t.keys.Keys + set a | a in d.overrides
      && forall a :: a in d.overrides ==>
           r.keys[a] == t.keys[path] && View(r)[a] == Override(t.records[id].path, d.headers)
  {
    var r, id := PrerenderStep(t, path, d), t.keys[path].id;
    assert r.records[id] == t.records[id].(headers := d.headers);
    assert r.keys == PointAll(t.keys, d.overrides, OverrideRef(id));
  }

  /** Prerendered headers on an existing override REPLACE the record's headers: every key
      sharing that record now resolves to the record's path with exactly the prerendered
      headers, whatever headers the record carried before. */
  lemma PrerenderReplacesHeaders(t: Table, path: string, d: PrerenderedFileData)
    requires Valid(t) && path in t.keys && t.keys[path].OverrideRef?
    ensures var r, id := PrerenderStep(t, path, d), t.keys[path].id;
      forall k :: k in t.keys && t.keys[k] == t.keys[path] ==> View(r)[k] == Override(t.records[id].path, d.headers)
  {
    var r, id := PrerenderStep(t, path, d), t.keys[path].id;
    forall k | k in t.keys && t.keys[k] == t.keys[path]
      ensures View(r)[k] == Override(t.records[id].path, d.headers)
    {
      assert r.keys[k] == OverrideRef(id) by {
        if k !in d.overrides { assert r.keys[k] == t.keys[k]; }
      }
    }
  }

  /** The keys on other records, or on plain entries, that a prerendered override does not
      name resolve as before. */
  lemma PrerenderOverrideFrame(t: Table, path: string, d: PrerenderedFileData)
    requires Valid(t) && path in t.keys && t.keys[path].OverrideRef?
    ensures var r := PrerenderStep(t, path, d);
      forall k :: k in t.keys && k !in d.overrides && t.keys[k] != t.keys[path] ==> View(r)[k] == View(t)[k]
  {
    var r := PrerenderStep(t, path, d);
    forall k | k in t.keys && k !in d.overrides && t.keys[k] != t.keys[path]
      ensures View(r)[k] == View(t)[k]
    {
      assert r.keys[k] == t.keys[k];
      if t.keys[k].OverrideRef? {
        assert r.records[t.keys[k].id] == t.records[t.keys[k].id];
      }
    }
  }

  /** Prerendered data on a static asset turns it into an override whose path is the asset's
      own key; each declared alias shares that record, and no key other than the aliases is
      added. */
  lemma PrerenderConvertsStatic(t: Table, path: string, d: PrerenderedFileData)
    requires Valid(t) && path in t.keys && t.keys[path] == StaticEntry
    ensures var r := PrerenderStep(t, path, d);
      && r.keys.Keys == t.keys.Keys + set a | a in d.overrides
      && View(r)[path] == Override(path, d.headers)
      && (forall a :: a in d.overrides ==> r.keys[a] == r.keys[path] && View(r)[a] == Override(path, d.headers))
  {
    var r := PrerenderStep(t, path, d);
    assert r.keys[path] == OverrideRef(|t.records|) by {
      if path !in d.overrides { assert r.keys[path] == t.keys[path := OverrideRef(|t.records|)][path]; }
    }
  }

  /** The keys a prerendered static entry does not name resolve as before. */
  lemma PrerenderStaticFrame(t: Table, path: string, d: PrerenderedFileData)
    requires Valid(t) && path in t.keys && t.keys[path] == StaticEntry
    ensures var r := PrerenderStep(t, path, d);
      forall k :: k in t.keys && k != path && k !in d.overrides ==> View(r)[k] == View(t)[k]
  {
    var r := PrerenderStep(t, path, d);
    forall k | k in t.keys && k != path && k !in d.overrides ensures View(r)[k] == View(t)[k] {
      assert r.keys[k] == t.keys[k];
      if t.keys[k].OverrideRef? {
        assert r.records[t.keys[k].id] == t.records[t.keys[k].id];
      }
    }
  }

  /** A seeded key that no override or prerendered entry names keeps its seeded entry. */
  lemma LaterStagesKeep(seeded: Table, ovs: seq<(string, OverrideSpec)>, pre: seq<(string, PrerenderedFileData)>,
                        k: string)
    requires Valid(seeded) && k in seeded.keys && k !in OverrideTargets(ovs) && k !in PrerenderTargets(pre)
    ensures k in ApplyPrerendered(ApplyOverrides(seeded, ovs), pre).keys
    ensures ApplyPrerendered(ApplyOverrides(seeded, ovs), pre).keys[k] == seeded.keys[k]
  {
    var t2 := ApplyOverrides(seeded, ovs);
    assert t2.keys[k] == seeded.keys[k];
  }

  /** An asset that no function, override or prerendered entry names stays exactly static. */
  lemma UntouchedAssetStaysStatic(assets: seq<string>, fns: seq<(string, string)>,
                                  ovs: seq<(string, OverrideSpec)>, pre: seq<(string, PrerenderedFileData)>,
                                  a: string)
    requires a in assets
    requires a !in FunctionKeys(fns) && a !in OverrideTargets(ovs) && a !in PrerenderTargets(pre)
    ensures a in Output(assets, fns, ovs, pre).keys
    ensures View(Output(assets, fns, ovs, pre))[a] == Static
  {
    var t0 := SeedAssets(Empty, assets);
    var t1 := SeedFunctions(t0, fns);
    assert t1.keys[a] == t0.keys[a] == StaticEntry;
    LaterStagesKeep(t1, ovs, pre, a);
  }

  /** A function whose output key no override or prerendered entry names is registered under
      that key: `/middleware` as the middleware under `middleware`, any other path verbatim
      as a function; the last of several entries for one key wins. */
  lemma FunctionsRegistered(assets: seq<string>, fns: seq<(string, string)>,
                            ovs: seq<(string, OverrideSpec)>, pre: seq<(string, PrerenderedFileData)>,
                            i: nat)
    requires i < |fns| && LastWrite(fns, i)
    requires FunctionKey(fns[i].0) !in OverrideTargets(ovs) && FunctionKey(fns[i].0) !in PrerenderTargets(pre)
    ensures FunctionKey(fns[i].0) in Output(assets, fns, ovs, pre).keys
    ensures View(Output(assets, fns, ovs, pre))[FunctionKey(fns[i].0)] ==
            if fns[i].0 == MiddlewarePath then Middleware(fns[i].1) else Function(fns[i].1)
  {
    var t0, k := SeedAssets(Empty, assets), FunctionKey(fns[i].0);
    var out := Output(assets, fns, ovs, pre);
    assert out == ApplyPrerendered(ApplyOverrides(SeedFunctions(t0, fns), ovs), pre);
    LastWriteWins(t0, fns, i);
    LaterStagesKeep(SeedFunctions(t0, fns), ovs, pre, k);
    RegisteredView(out, k, fns[i]);
  }

  lemma RegisteredView(t: Table, k: string, f: (string, string))
    requires Valid(t) && k in t.keys && t.keys[k] == FunctionSlot(f.0, f.1)
    ensures View(t)[k] == if f.0 == MiddlewarePath then Middleware(f.1) else Function(f.1)
  {
  }
}
