/**
 * The three scenarios the repository's tests of the merge engine pin down, computed
 * stage by stage on the model. Each stage is unrolled once by a lemma that knows
 * nothing about the concrete paths, then applied to them.
 */
module Scenarios {
  import opened Wrappers
  import opened Routes
  import opened BuildOutput

  const Html: Headers := map["content-type" := "text/html; charset=utf-8"]

  const Vary: Headers := map["vary" := "RSC, Next-Router-State-Tree, Next-Router-Prefetch"]

  const RscHeaders: Headers := map["content-type" := "text/x-component",
                                   "vary" := "RSC, Next-Router-State-Tree, Next-Router-Prefetch"]

  function Rewrite(src: string, dest: string): Route {
    Rule(src, Some(dest), None)
  }

  // ---------------------------------------------------------------------------
  // Unrolling the stages on short lists

  /** Seeding the empty table with assets gives exactly static entries under those paths. */
  lemma SeededStatic(assets: seq<string>, m: map<string, Entry>)
    requires m.Keys == set a | a in assets
    requires forall k :: k in m ==> m[k] == StaticEntry
    ensures SeedAssets(Empty, assets) == Table([], m)
  {
    var r := SeedAssets(Empty, assets);
    assert r.keys == m;
  }

  lemma SeedFunctionsOne(t: Table, f: (string, string))
    requires Valid(t)
    ensures SeedFunctions(t, [f]) == SeedFunction(t, f)
  {
    assert [f][..0] == [];
    assert SeedFunctions(t, []) == t;
  }

  lemma SeedFunctionsTwo(t: Table, f: (string, string), g: (string, string))
    requires Valid(t)
    ensures SeedFunctions(t, [f, g]) == SeedFunction(SeedFunction(t, f), g)
  {
    SeedFunctionsOne(t, f);
    assert [f, g][..1] == [f];
  }

  lemma ApplyOverridesThree(t: Table, a: (string, OverrideSpec), b: (string, OverrideSpec), c: (string, OverrideSpec))
    requires Valid(t)
    ensures ApplyOverrides(t, [a, b, c]) == OverrideStep(OverrideStep(OverrideStep(t, a.0, a.1), b.0, b.1), c.0, c.1)
  {
    assert [a][..0] == [];
    assert ApplyOverrides(t, []) == t;
    var t1 := OverrideStep(t, a.0, a.1);
    assert ApplyOverrides(t, [a]) == t1;
    assert [a, b][..1] == [a];
    var t2 := OverrideStep(t1, b.0, b.1);
    assert ApplyOverrides(t, [a, b]) == t2;
    assert [a, b, c][..2] == [a, b];
  }

  lemma ApplyPrerenderedThree(t: Table, a: (string, PrerenderedFileData), b: (string, PrerenderedFileData),
                              c: (string, PrerenderedFileData))
    requires Valid(t)
    ensures ApplyPrerendered(t, [a, b, c]) == PrerenderStep(PrerenderStep(PrerenderStep(t, a.0, a.1), b.0, b.1), c.0, c.1)
  {
    assert [a][..0] == [];
    assert ApplyPrerendered(t, []) == t;
    var t1 := PrerenderStep(t, a.0, a.1);
    assert ApplyPrerendered(t, [a]) == t1;
    assert [a, b][..1] == [a];
    var t2 := PrerenderStep(t1, b.0, b.1);
    assert ApplyPrerendered(t, [a, b]) == t2;
    assert [a, b, c][..2] == [a, b];
  }

  lemma PointAllTwo(keys: map<string, Entry>, p: string, q: string, e: Entry)
    ensures PointAll(keys, [p, q], e) == keys[p := e][q := e]
  {
    assert [p][..0] == [];
    assert PointAll(keys, [], e) == keys;
    assert PointAll(keys, [p], e) == keys[p := e];
    assert [p, q][..1] == [p];
  }

  /** The view after one more key: the key resolves on its own, the others as before. */
  lemma ViewUpdate(records: seq<OverrideRecord>, keys: map<string, Entry>, k: string, e: Entry)
    requires Valid(Table(records, keys)) && (e.OverrideRef? ==> e.id < |records|)
    ensures Valid(Table(records, keys[k := e]))
    ensures View(Table(records, keys[k := e])) == View(Table(records, keys))[k := Resolve(Table(records, keys), e)]
  {
  }

  // ---------------------------------------------------------------------------
  // First scenario: bucketing, and function registration

  const FirstRoutes: seq<Route> := [
    Rewrite("/test-1", "/test-2"),
    Rule("/use-middleware", None, Some("middleware")),
    Handle("filesystem"),
    Rewrite("/test-3", "/test-4"),
    Handle("miss"),
    Rewrite("/test-2", "/test-6")
  ]

  /** Rules before any marker land in `none` in source order, rules after `filesystem` in
      `filesystem`, rules after `miss` in `miss`; markers land nowhere; the remaining buckets
      are present and empty. */
  lemma FirstScenarioRoutes()
    ensures KnownPhases(FirstRoutes)
    ensures Bucketize(FirstRoutes) == map[
      "none" := [Rewrite("/test-1", "/test-2"), Rule("/use-middleware", None, Some("middleware"))],
      "filesystem" := [Rewrite("/test-3", "/test-4")],
      "miss" := [Rewrite("/test-2", "/test-6")],
      "rewrite" := [], "resource" := [], "hit" := [], "error" := []]
  {
    FirstBuckets();
    BucketsByPhase(Bucketize(FirstRoutes),
      [Rewrite("/test-1", "/test-2"), Rule("/use-middleware", None, Some("middleware"))],
      [Rewrite("/test-3", "/test-4")], [Rewrite("/test-2", "/test-6")]);
  }

  /** The first scenario's buckets, one phase at a time. */
  lemma FirstBuckets()
    ensures KnownPhases(FirstRoutes)
    ensures var b := Bucketize(FirstRoutes);
      && b["none"] == [Rewrite("/test-1", "/test-2"), Rule("/use-middleware", None, Some("middleware"))]
      && b["filesystem"] == [Rewrite("/test-3", "/test-4")]
      && b["miss"] == [Rewrite("/test-2", "/test-6")]
      && b["rewrite"] == [] && b["resource"] == [] && b["hit"] == [] && b["error"] == []
  {
    var plain := [Rewrite("/test-1", "/test-2"), Rule("/use-middleware", None, Some("middleware"))];
    var third, sixth := Rewrite("/test-3", "/test-4"), Rewrite("/test-2", "/test-6");
    var upToMiss := plain + [Handle("filesystem")] + [third];
    assert FirstRoutes == upToMiss + [Handle("miss")] + [sixth];
    NoMarkersAllInNone(plain);
    TrailingPhase(plain, "filesystem", [third]);
    TrailingPhase(upToMiss, "miss", [sixth]);
  }

  /** Buckets known phase by phase are the map of the seven phases. */
  lemma BucketsByPhase(b: Buckets, none: seq<Route>, filesystem: seq<Route>, miss: seq<Route>)
    requires b.Keys == Phases
    requires b["none"] == none && b["filesystem"] == filesystem && b["miss"] == miss
    requires b["rewrite"] == [] && b["resource"] == [] && b["hit"] == [] && b["error"] == []
    ensures b == map["none" := none, "filesystem" := filesystem, "miss" := miss,
                     "rewrite" := [], "resource" := [], "hit" := [], "error" := []]
  {
  }

  const FirstFunctions: seq<(string, string)> :=
    [("/middleware", "/middleware/index.js"), ("/use-middleware", "/use-middleware/index.js")]

  /** The asset stays static, `/middleware` is registered as the middleware under
      `middleware`, the other function verbatim; nothing else is in the table. */
  lemma FirstScenarioOutput()
    ensures View(Output(["/static/test.png"], FirstFunctions, [], [])) == map[
      "/static/test.png" := Static,
      "/use-middleware" := Function("/use-middleware/index.js"),
      "middleware" := Middleware("/middleware/index.js")]
  {
    FirstSeeded();
    FirstOutput(SeedFunctions(SeedAssets(Empty, ["/static/test.png"]), FirstFunctions));
    FirstTableView();
  }

  /** With neither overrides nor prerendered data the output is the seeded table. */
  lemma FirstOutput(t: Table)
    requires t == Table([], FirstKeys)
    ensures ApplyPrerendered(ApplyOverrides(t, []), []) == t
  {
    assert ApplyOverrides(t, []) == t;
  }

  /** The view of the first scenario's table, entry by entry. */
  lemma FirstTableView()
    ensures View(Table([], FirstKeys)) == map[
      "/static/test.png" := Static,
      "/use-middleware" := Function("/use-middleware/index.js"),
      "middleware" := Middleware("/middleware/index.js")]
  {
    var k0: map<string, Entry> := map[];
    ViewUpdate([], k0, "/static/test.png", StaticEntry);
    var k1 := k0["/static/test.png" := StaticEntry];
    ViewUpdate([], k1, "middleware", MiddlewareEntry("/middleware/index.js"));
    var k2 := k1["middleware" := MiddlewareEntry("/middleware/index.js")];
    ViewUpdate([], k2, "/use-middleware", FunctionEntry("/use-middleware/index.js"));
  }

  const FirstKeys: map<string, Entry> := map["/static/test.png" := StaticEntry,
    "middleware" := MiddlewareEntry("/middleware/index.js"), "/use-middleware" := FunctionEntry("/use-middleware/index.js")]

  /** The first scenario's asset and functions, seeded. */
  lemma FirstSeeded()
    ensures SeedFunctions(SeedAssets(Empty, ["/static/test.png"]), FirstFunctions) == Table([], FirstKeys)
  {
    var seeded := Table([], map["/static/test.png" := StaticEntry]);
    SeededStatic(["/static/test.png"], seeded.keys);
    SeedFunctionsTwo(seeded, FirstFunctions[0], FirstFunctions[1]);
    assert SeedFunction(seeded, FirstFunctions[0]) == Table([], seeded.keys["middleware" := MiddlewareEntry("/middleware/index.js")]);
  }

  // ---------------------------------------------------------------------------
  // Second scenario: config overrides

  const PageOnly: seq<(string, string)> := [("/page", "/page/index.js")]

  const ErrorAndIndexOverrides: seq<(string, OverrideSpec)> := [
    ("404.html", OverrideSpec("404", "text/html; charset=utf-8")),
    ("500.html", OverrideSpec("500", "text/html; charset=utf-8")),
    ("index.html", OverrideSpec("index", "text/html; charset=utf-8"))
  ]

  /** The `404.html` override on a table with no record yet. */
  lemma Override404(t: Table)
    requires Valid(t) && t.records == [] && "/404.html" in t.keys
    ensures OverrideStep(t, "404.html", ErrorAndIndexOverrides[0].1)
         == Table([OverrideRecord("/404.html", Html)], t.keys["/404.html" := OverrideRef(0)]["/404" := OverrideRef(0)])
  {
    assert "/" + "404.html" == "/404.html";
    assert "/" + "404" == "/404";
    assert !IsIndexAlias("/404");
  }

  /** The `500.html` override after the first one. */
  lemma Override500(t: Table)
    requires Valid(t) && |t.records| == 1 && "/500.html" in t.keys
    ensures OverrideStep(t, "500.html", ErrorAndIndexOverrides[1].1)
         == Table(t.records + [OverrideRecord("/500.html", Html)], t.keys["/500.html" := OverrideRef(1)]["/500" := OverrideRef(1)])
  {
    assert "/" + "500.html" == "/500.html";
    assert "/" + "500" == "/500";
    assert !IsIndexAlias("/500");
  }

  /** The `index.html` override after the first two: `/` is an alias as well. */
  lemma OverrideIndex(t: Table)
    requires Valid(t) && |t.records| == 2 && "/index.html" in t.keys
    ensures OverrideStep(t, "index.html", ErrorAndIndexOverrides[2].1)
         == Table(t.records + [OverrideRecord("/index.html", Html)],
                  t.keys["/index.html" := OverrideRef(2)]["/index" := OverrideRef(2)]["/" := OverrideRef(2)])
  {
    assert "/" + "index.html" == "/index.html";
    assert "/" + "index" == "/index";
    assert "/index"[6 - 6..] == "/index";
    assert IsIndexAlias("/index");
  }

  /** The three overrides on a table holding the three pages and no record. */
  lemma OverridesApplied(t: Table)
    requires Valid(t) && t.records == []
    requires "/404.html" in t.keys && "/500.html" in t.keys && "/index.html" in t.keys
    ensures ApplyOverrides(t, ErrorAndIndexOverrides) == Table(SecondRecords,
      t.keys["/404.html" := OverrideRef(0)]["/404" := OverrideRef(0)]
            ["/500.html" := OverrideRef(1)]["/500" := OverrideRef(1)]
            ["/index.html" := OverrideRef(2)]["/index" := OverrideRef(2)]["/" := OverrideRef(2)])
  {
    var ovs := ErrorAndIndexOverrides;
    ThreeOverrides(t);
    var k1 := t.keys["/404.html" := OverrideRef(0)]["/404" := OverrideRef(0)];
    var t1 := Table([OverrideRecord("/404.html", Html)], k1);
    Override404(t);
    var k2 := k1["/500.html" := OverrideRef(1)]["/500" := OverrideRef(1)];
    var t2 := Table(t1.records + [OverrideRecord("/500.html", Html)], k2);
    Override500(t1);
    OverrideIndex(t2);
    SecondRecordsBuilt();
  }

  lemma SecondRecordsBuilt()
    ensures [OverrideRecord("/404.html", Html)] + [OverrideRecord("/500.html", Html)]
            + [OverrideRecord("/index.html", Html)] == SecondRecords
  {
  }

  /** The second scenario's override list, unrolled. */
  lemma ThreeOverrides(t: Table)
    requires Valid(t)
    ensures ApplyOverrides(t, ErrorAndIndexOverrides) ==
      OverrideStep(OverrideStep(OverrideStep(t, "404.html", ErrorAndIndexOverrides[0].1),
                                "500.html", ErrorAndIndexOverrides[1].1),
                   "index.html", ErrorAndIndexOverrides[2].1)
  {
    var ovs := ErrorAndIndexOverrides;
    assert ovs == [ovs[0], ovs[1], ovs[2]];
    ApplyOverridesThree(t, ovs[0], ovs[1], ovs[2]);
  }

  const SecondAssets: seq<string> := ["/404.html", "/500.html", "/index.html", "/test.html"]

  const SecondRecords: seq<OverrideRecord> :=
    [OverrideRecord("/404.html", Html), OverrideRecord("/500.html", Html), OverrideRecord("/index.html", Html)]

  /** The second scenario's final keys: pages and their served paths share a record. */
  const SecondKeys: map<string, Entry> := map["/404.html" := OverrideRef(0), "/500.html" := OverrideRef(1), "/index.html" := OverrideRef(2),
    "/test.html" := StaticEntry, "/page" := FunctionEntry("/page/index.js"),
    "/404" := OverrideRef(0), "/500" := OverrideRef(1), "/index" := OverrideRef(2), "/" := OverrideRef(2)]

  /** Each override turns its page into a record with the content type, and the served path
      (and `/` for `index`) points at that SAME record; the asset no override names stays
      static; the function is registered verbatim. */
  lemma SecondScenario()
    ensures Output(SecondAssets, PageOnly, ErrorAndIndexOverrides, []) == Table(SecondRecords, SecondKeys)
  {
    SecondSeeded();
    var seeded := Table([], SecondSeededKeys);
    SecondOverridden(seeded);
    assert ApplyPrerendered(ApplyOverrides(seeded, ErrorAndIndexOverrides), []) == ApplyOverrides(seeded, ErrorAndIndexOverrides);
  }

  const SecondSeededKeys: map<string, Entry> := map[
    "/404.html" := StaticEntry, "/500.html" := StaticEntry, "/index.html" := StaticEntry,
    "/test.html" := StaticEntry, "/page" := FunctionEntry("/page/index.js")]

  /** The second scenario's assets and function, seeded. */
  lemma SecondSeeded()
    ensures SeedFunctions(SeedAssets(Empty, SecondAssets), PageOnly) == Table([], SecondSeededKeys)
  {
    var assets := map["/404.html" := StaticEntry, "/500.html" := StaticEntry, "/index.html" := StaticEntry,
                      "/test.html" := StaticEntry];
    var t0 := Table([], assets);
    SeededStatic(SecondAssets, assets);
    assert PageOnly == [PageOnly[0]];
    SeedFunctionsOne(t0, PageOnly[0]);
    assert SeedFunctions(t0, PageOnly) == Table([], assets["/page" := FunctionEntry("/page/index.js")]);
  }

  /** The second scenario's overrides, on its seeded table. */
  lemma SecondOverridden(t: Table)
    requires t == Table([], SecondSeededKeys)
    ensures Valid(t)
    ensures ApplyOverrides(t, ErrorAndIndexOverrides) == Table(SecondRecords, SecondKeys)
  {
    OverridesApplied(t);
    SecondKeysBuilt(t.keys);
  }

  /** The second scenario's keys after the overrides, as one map. */
  lemma SecondKeysBuilt(k: map<string, Entry>)
    requires k == SecondSeededKeys
    ensures k["/404.html" := OverrideRef(0)]["/404" := OverrideRef(0)]
             ["/500.html" := OverrideRef(1)]["/500" := OverrideRef(1)]
             ["/index.html" := OverrideRef(2)]["/index" := OverrideRef(2)]["/" := OverrideRef(2)] == SecondKeys
  {
  }

  /** What the router sees of the second scenario, as the test expects it. */
  lemma SecondScenarioView()
    ensures View(Output(SecondAssets, PageOnly, ErrorAndIndexOverrides, [])) == map[
      "/404.html" := Override("/404.html", Html),
      "/500.html" := Override("/500.html", Html),
      "/index.html" := Override("/index.html", Html),
      "/test.html" := Static,
      "/page" := Function("/page/index.js"),
      "/404" := Override("/404.html", Html),
      "/500" := Override("/500.html", Html),
      "/index" := Override("/index.html", Html),
      "/" := Override("/index.html", Html)]
  {
    SecondScenario();
    SecondTableView();
  }

  /** The view of the final table, entry by entry. */
  lemma SecondTableView()
    ensures View(Table(SecondRecords, SecondKeys)) == map[
      "/404.html" := Override("/404.html", Html),
      "/500.html" := Override("/500.html", Html),
      "/index.html" := Override("/index.html", Html),
      "/test.html" := Static,
      "/page" := Function("/page/index.js"),
      "/404" := Override("/404.html", Html),
      "/500" := Override("/500.html", Html),
      "/index" := Override("/index.html", Html),
      "/" := Override("/index.html", Html)]
  {
    var r := SecondRecords;
    var k0: map<string, Entry> := map[];
    ViewUpdate(r, k0, "/404.html", OverrideRef(0));
    var k1 := k0["/404.html" := OverrideRef(0)];
    ViewUpdate(r, k1, "/500.html", OverrideRef(1));
    var k2 := k1["/500.html" := OverrideRef(1)];
    ViewUpdate(r, k2, "/index.html", OverrideRef(2));
    var k3 := k2["/index.html" := OverrideRef(2)];
    ViewUpdate(r, k3, "/test.html", StaticEntry);
    var k4 := k3["/test.html" := StaticEntry];
    ViewUpdate(r, k4, "/page", FunctionEntry("/page/index.js"));
    var k5 := k4["/page" := FunctionEntry("/page/index.js")];
    ViewUpdate(r, k5, "/404", OverrideRef(0));
    var k6 := k5["/404" := OverrideRef(0)];
    ViewUpdate(r, k6, "/500", OverrideRef(1));
    var k7 := k6["/500" := OverrideRef(1)];
    ViewUpdate(r, k7, "/index", OverrideRef(2));
    var k8 := k7["/index" := OverrideRef(2)];
    ViewUpdate(r, k8, "/", OverrideRef(2));
  }

  // ---------------------------------------------------------------------------
  // Third scenario: prerendered data after the overrides

  const ThirdAssets: seq<string> :=
    ["/404.html", "/500.html", "/index.html", "/index.rsc", "/nested/(route-group)/foo.html"]

  const ThirdPrerendered: seq<(string, PrerenderedFileData)> := [
    ("/index.html", PrerenderedFileData(Vary, ["/index", "/"])),
    ("/index.rsc", PrerenderedFileData(RscHeaders, [])),
    ("/nested/(route-group)/foo.html", PrerenderedFileData(Vary, ["/nested/foo.html", "/nested/foo"]))
  ]

  const ThirdRecords: seq<OverrideRecord> := [
    OverrideRecord("/404.html", Html), OverrideRecord("/500.html", Html), OverrideRecord("/index.html", Vary),
    OverrideRecord("/index.rsc", RscHeaders), OverrideRecord("/nested/(route-group)/foo.html", Vary)]

  /** `/index.html` already has a record: its headers become exactly `vary`. */
  lemma PrerenderIndex(t: Table)
    requires Valid(t) && |t.records| == 3
    requires "/index.html" in t.keys && "/index" in t.keys && "/" in t.keys
    requires t.keys["/index.html"] == t.keys["/index"] == t.keys["/"] == OverrideRef(2)
    ensures PrerenderStep(t, "/index.html", ThirdPrerendered[0].1)
         == Table(t.records[2 := t.records[2].(headers := Vary)], t.keys)
  {
    PointAllTwo(t.keys, "/index", "/", OverrideRef(2));
    assert t.keys["/index" := OverrideRef(2)]["/" := OverrideRef(2)] == t.keys;
  }

  /** `/index.rsc` is static: it gets a record of its own path, and no alias. */
  lemma PrerenderRsc(t: Table)
    requires Valid(t) && |t.records| == 3 && "/index.rsc" in t.keys && t.keys["/index.rsc"] == StaticEntry
    ensures PrerenderStep(t, "/index.rsc", ThirdPrerendered[1].1)
         == Table(t.records + [OverrideRecord("/index.rsc", RscHeaders)], t.keys["/index.rsc" := OverrideRef(3)])
  {
    assert PointAll(t.keys["/index.rsc" := OverrideRef(3)], [], OverrideRef(3)) == t.keys["/index.rsc" := OverrideRef(3)];
  }

  /** The route-group page is static: it gets a record of its own path, shared by both aliases. */
  lemma PrerenderGroup(t: Table)
    requires Valid(t) && |t.records| == 4
    requires "/nested/(route-group)/foo.html" in t.keys && t.keys["/nested/(route-group)/foo.html"] == StaticEntry
    ensures PrerenderStep(t, "/nested/(route-group)/foo.html", ThirdPrerendered[2].1)
         == Table(t.records + [OverrideRecord("/nested/(route-group)/foo.html", Vary)],
                  t.keys["/nested/(route-group)/foo.html" := OverrideRef(4)]
                        ["/nested/foo.html" := OverrideRef(4)]["/nested/foo" := OverrideRef(4)])
  {
    PointAllTwo(t.keys["/nested/(route-group)/foo.html" := OverrideRef(4)], "/nested/foo.html", "/nested/foo", OverrideRef(4));
  }

  /** The three prerendered entries after the overrides. */
  lemma PrerenderedApplied(t: Table)
    requires Valid(t) && t.records == SecondRecords
    requires "/index.html" in t.keys && "/index" in t.keys && "/" in t.keys
    requires t.keys["/index.html"] == t.keys["/index"] == t.keys["/"] == OverrideRef(2)
    requires "/index.rsc" in t.keys && t.keys["/index.rsc"] == StaticEntry
    requires "/nested/(route-group)/foo.html" in t.keys && t.keys["/nested/(route-group)/foo.html"] == StaticEntry
    ensures ApplyPrerendered(t, ThirdPrerendered) == Table(ThirdRecords,
      t.keys["/index.rsc" := OverrideRef(3)]["/nested/(route-group)/foo.html" := OverrideRef(4)]
            ["/nested/foo.html" := OverrideRef(4)]["/nested/foo" := OverrideRef(4)])
  {
    var pre := ThirdPrerendered;
    ThreePrerendered(t);
    var t1 := Table(t.records[2 := t.records[2].(headers := Vary)], t.keys);
    PrerenderIndex(t);
    var t2 := Table(t1.records + [OverrideRecord("/index.rsc", RscHeaders)], t.keys["/index.rsc" := OverrideRef(3)]);
    PrerenderRsc(t1);
    PrerenderGroup(t2);
    ThirdRecordsBuilt();
  }

  /** The third scenario's prerendered list, unrolled. */
  lemma ThreePrerendered(t: Table)
    requires Valid(t)
    ensures ApplyPrerendered(t, ThirdPrerendered) ==
      PrerenderStep(PrerenderStep(PrerenderStep(t, "/index.html", ThirdPrerendered[0].1),
                                  "/index.rsc", ThirdPrerendered[1].1),
                    "/nested/(route-group)/foo.html", ThirdPrerendered[2].1)
  {
    var pre := ThirdPrerendered;
    assert pre == [pre[0], pre[1], pre[2]];
    ApplyPrerenderedThree(t, pre[0], pre[1], pre[2]);
  }

  /** The arena after the prerendered data: the index record edited, two records appended. */
  lemma ThirdRecordsBuilt()
    ensures SecondRecords[2 := SecondRecords[2].(headers := Vary)]
      + [OverrideRecord("/index.rsc", RscHeaders)] + [OverrideRecord("/nested/(route-group)/foo.html", Vary)]
      == ThirdRecords
  {
  }

  const ThirdKeys: map<string, Entry> := map[
    "/404.html" := OverrideRef(0), "/500.html" := OverrideRef(1), "/index.html" := OverrideRef(2),
    "/index.rsc" := OverrideRef(3), "/nested/(route-group)/foo.html" := OverrideRef(4),
    "/page" := FunctionEntry("/page/index.js"),
    "/404" := OverrideRef(0), "/500" := OverrideRef(1), "/index" := OverrideRef(2), "/" := OverrideRef(2),
    "/nested/foo.html" := OverrideRef(4), "/nested/foo" := OverrideRef(4)]

  /** Prerendered headers REPLACE the index record's headers, seen through `/index.html`,
      `/index` and `/`; the error pages keep their content type; the route-group page is an
      override of its own path, shared by both declared aliases; nothing else is added. */
  lemma ThirdScenario()
    ensures Output(ThirdAssets, PageOnly, ErrorAndIndexOverrides, ThirdPrerendered) == Table(ThirdRecords, ThirdKeys)
  {
    ThirdSeeded();
    ThirdOverridden(Table([], ThirdSeededKeys));
    ThirdPrerenderedApplied();
  }

  const ThirdSeededKeys: map<string, Entry> := map[
    "/404.html" := StaticEntry, "/500.html" := StaticEntry, "/index.html" := StaticEntry,
    "/index.rsc" := StaticEntry, "/nested/(route-group)/foo.html" := StaticEntry,
    "/page" := FunctionEntry("/page/index.js")]

  /** The third scenario's assets and function, seeded. */
  lemma ThirdSeeded()
    ensures SeedFunctions(SeedAssets(Empty, ThirdAssets), PageOnly) == Table([], ThirdSeededKeys)
  {
    var assets := map["/404.html" := StaticEntry, "/500.html" := StaticEntry, "/index.html" := StaticEntry,
                      "/index.rsc" := StaticEntry, "/nested/(route-group)/foo.html" := StaticEntry];
    var t0 := Table([], assets);
    SeededStatic(ThirdAssets, assets);
    assert PageOnly == [PageOnly[0]];
    SeedFunctionsOne(t0, PageOnly[0]);
    assert SeedFunctions(t0, PageOnly) == Table([], assets["/page" := FunctionEntry("/page/index.js")]);
  }

  /** The overrides of the third scenario, on its seeded table. */
  lemma ThirdOverridden(t: Table)
    requires t == Table([], ThirdSeededKeys)
    ensures Valid(t)
    ensures ApplyOverrides(t, ErrorAndIndexOverrides) == Table(SecondRecords, ThirdKeysOverridden)
  {
    OverridesApplied(t);
    ThirdKeysAfterOverrides(t.keys);
  }

  /** The prerendered data of the third scenario, after its overrides. */
  lemma ThirdPrerenderedApplied()
    ensures Valid(Table(SecondRecords, ThirdKeysOverridden))
    ensures ApplyPrerendered(Table(SecondRecords, ThirdKeysOverridden), ThirdPrerendered) == Table(ThirdRecords, ThirdKeys)
  {
    PrerenderedApplied(Table(SecondRecords, ThirdKeysOverridden));
    ThirdKeysBuilt();
  }

  const ThirdKeysOverridden: map<string, Entry> := map[
    "/404.html" := OverrideRef(0), "/500.html" := OverrideRef(1), "/index.html" := OverrideRef(2),
    "/index.rsc" := StaticEntry, "/nested/(route-group)/foo.html" := StaticEntry,
    "/page" := FunctionEntry("/page/index.js"),
    "/404" := OverrideRef(0), "/500" := OverrideRef(1), "/index" := OverrideRef(2), "/" := OverrideRef(2)]

  /** The third scenario's keys after the overrides, as one map. */
  lemma ThirdKeysAfterOverrides(k: map<string, Entry>)
    requires k == ThirdSeededKeys
    ensures k["/404.html" := OverrideRef(0)]["/404" := OverrideRef(0)]
             ["/500.html" := OverrideRef(1)]["/500" := OverrideRef(1)]
             ["/index.html" := OverrideRef(2)]["/index" := OverrideRef(2)]["/" := OverrideRef(2)]
            == ThirdKeysOverridden
  {
  }

  /** The third scenario's keys after the prerendered data, as one map. */
  lemma ThirdKeysBuilt()
    ensures ThirdKeysOverridden["/index.rsc" := OverrideRef(3)]["/nested/(route-group)/foo.html" := OverrideRef(4)]
              ["/nested/foo.html" := OverrideRef(4)]["/nested/foo" := OverrideRef(4)] == ThirdKeys
  {
  }

  /** What the router sees of the third scenario, as the test expects it. */
  lemma ThirdScenarioView()
    ensures View(Output(ThirdAssets, PageOnly, ErrorAndIndexOverrides, ThirdPrerendered)) == map[
      "/404.html" := Override("/404.html", Html),
      "/500.html" := Override("/500.html", Html),
      "/index.html" := Override("/index.html", Vary),
      "/index.rsc" := Override("/index.rsc", RscHeaders),
      "/nested/(route-group)/foo.html" := Override("/nested/(route-group)/foo.html", Vary),
      "/page" := Function("/page/index.js"),
      "/404" := Override("/404.html", Html),
      "/500" := Override("/500.html", Html),
      "/index" := Override("/index.html", Vary),
      "/" := Override("/index.html", Vary),
      "/nested/foo.html" := Override("/nested/(route-group)/foo.html", Vary),
      "/nested/foo" := Override("/nested/(route-group)/foo.html", Vary)]
  {
    ThirdScenario();
    ThirdTableView();
  }

  /** The view of the final table, entry by entry. */
  lemma ThirdTableView()
    ensures View(Table(ThirdRecords, ThirdKeys)) == map[
      "/404.html" := Override("/404.html", Html),
      "/500.html" := Override("/500.html", Html),
      "/index.html" := Override("/index.html", Vary),
      "/index.rsc" := Override("/index.rsc", RscHeaders),
      "/nested/(route-group)/foo.html" := Override("/nested/(route-group)/foo.html", Vary),
      "/page" := Function("/page/index.js"),
      "/404" := Override("/404.html", Html),
      "/500" := Override("/500.html", Html),
      "/index" := Override("/index.html", Vary),
      "/" := Override("/index.html", Vary),
      "/nested/foo.html" := Override("/nested/(route-group)/foo.html", Vary),
      "/nested/foo" := Override("/nested/(route-group)/foo.html", Vary)]
  {
    var r := ThirdRecords;
    var k0: map<string, Entry> := map[];
    ViewUpdate(r, k0, "/404.html", OverrideRef(0));
    var k1 := k0["/404.html" := OverrideRef(0)];
    ViewUpdate(r, k1, "/500.html", OverrideRef(1));
    var k2 := k1["/500.html" := OverrideRef(1)];
    ViewUpdate(r, k2, "/index.html", OverrideRef(2));
    var k3 := k2["/index.html" := OverrideRef(2)];
    ViewUpdate(r, k3, "/index.rsc", OverrideRef(3));
    var k4 := k3["/index.rsc" := OverrideRef(3)];
    ViewUpdate(r, k4, "/nested/(route-group)/foo.html", OverrideRef(4));
    var k5 := k4["/nested/(route-group)/foo.html" := OverrideRef(4)];
    ViewUpdate(r, k5, "/page", FunctionEntry("/page/index.js"));
    var k6 := k5["/page" := FunctionEntry("/page/index.js")];
    ViewUpdate(r, k6, "/404", OverrideRef(0));
    var k7 := k6["/404" := OverrideRef(0)];
    ViewUpdate(r, k7, "/500", OverrideRef(1));
    var k8 := k7["/500" := OverrideRef(1)];
    ViewUpdate(r, k8, "/index", OverrideRef(2));
    var k9 := k8["/index" := OverrideRef(2)];
    ViewUpdate(r, k9, "/", OverrideRef(2));
    var k10 := k9["/" := OverrideRef(2)];
    ViewUpdate(r, k10, "/nested/foo.html", OverrideRef(4));
    var k11 := k10["/nested/foo.html" := OverrideRef(4)];
    ViewUpdate(r, k11, "/nested/foo", OverrideRef(4));
  }
}
