/**
 * The route half of the build-output merge: the manifest's ordered route list,
 * with `{handle: <phase>}` markers interleaved, is split into seven phase buckets.
 */
module Routes {
  import opened Wrappers

  /** A route of the manifest: a matchable rule, or a marker that switches the phase. */
  datatype Route =
    | Rule(src: string, dest: Option<string>, middlewarePath: Option<string>)
    | Handle(handle: string)

  /** The seven phases a request-time router walks. */
  const Phases: set<string> := {"none", "filesystem", "miss", "rewrite", "resource", "hit", "error"}

  /** Phase name to the rules routed in that phase. */
  type Buckets = map<string, seq<Route>>

  /** Every marker in the list names one of the seven phases. */
  predicate KnownPhases(routes: seq<Route>) {
    forall i :: 0 <= i < |routes| && routes[i].Handle? ==> routes[i].handle in Phases
  }

  function EmptyBuckets(): (b: Buckets)
    ensures b.Keys == Phases
    ensures forall p :: p in b ==> b[p] == []
  {
    map p | p in Phases :: []
  }

  /** The state carried along the route list: the current phase and the buckets so far. */
  datatype Walk = Walk(phase: string, buckets: Buckets)

  predicate WellFormed(w: Walk) {
    w.phase in Phases && w.buckets.Keys == Phases
  }

  const Start: Walk := Walk("none", EmptyBuckets())

  /** One route: a marker switches the phase, a rule is appended to the current bucket. */
  function Step(w: Walk, r: Route): (w': Walk)
    requires WellFormed(w)
    requires r.Handle? ==> r.handle in Phases
    ensures WellFormed(w')
    ensures r.Handle? ==> w'.phase == r.handle && w'.buckets == w.buckets
    ensures r.Rule? ==> w'.phase == w.phase && w'.buckets[w.phase] == w.buckets[w.phase] + [r]
    ensures r.Rule? ==> forall p :: p in Phases && p != w.phase ==> w'.buckets[p] == w.buckets[p]
  {
    match r
    case Handle(h) => Walk(h, w.buckets)
    case Rule(_, _, _) => Walk(w.phase, w.buckets[w.phase := w.buckets[w.phase] + [r]])
  }

  /** The left fold of Step over the route list. */
  function Fold(w: Walk, routes: seq<Route>): (w': Walk)
    requires WellFormed(w)
    requires KnownPhases(routes)
    ensures WellFormed(w')
    decreases |routes|
  {
    if routes == [] then w
    else
      assert KnownPhases(routes[1..]) by {
        forall i | 0 <= i < |routes[1..]| && routes[1..][i].Handle?
          ensures routes[1..][i].handle in Phases
        {
          assert routes[1..][i] == routes[i + 1];
        }
      }
      Fold(Step(w, routes[0]), routes[1..])
  }

  /** The route buckets of the processed config: all seven phases are always present. */
  function Bucketize(routes: seq<Route>): (b: Buckets)
    requires KnownPhases(routes)
    ensures b.Keys == Phases
  {
    Fold(Start, routes).buckets
  }

  // ---------------------------------------------------------------------------
  // A reference definition, read from the end of the list instead of folded
  // from the front: the phase in force after a prefix, and the rules it governs.

  /** The phase named by the last marker of `routes`, or "none" when there is no marker. */
  function PhaseAfter(routes: seq<Route>): string
    decreases |routes|
  {
    if routes == [] then "none"
    else if routes[|routes| - 1].Handle? then routes[|routes| - 1].handle
    else PhaseAfter(routes[..|routes| - 1])
  }

  /** The rules of `routes`, in order, that follow a marker for phase `p` (or no marker, for "none"). */
  function Governed(routes: seq<Route>, p: string): seq<Route>
    decreases |routes|
  {
    if routes == [] then []
    else
      var init, last := routes[..|routes| - 1], routes[|routes| - 1];
      Governed(init, p) + (if last.Rule? && PhaseAfter(init) == p then [last] else [])
  }

  lemma KnownPhasesPrefix(routes: seq<Route>, n: nat)
    requires KnownPhases(routes) && n <= |routes|
    ensures KnownPhases(routes[..n])
  {
    forall i | 0 <= i < n && routes[..n][i].Handle? ensures routes[..n][i].handle in Phases {
      assert routes[..n][i] == routes[i];
    }
  }

  lemma KnownPhasesConcat(a: seq<Route>, b: seq<Route>)
    ensures KnownPhases(a + b) <==> KnownPhases(a) && KnownPhases(b)
  {
    if KnownPhases(a + b) {
      forall i | 0 <= i < |a| && a[i].Handle? ensures a[i].handle in Phases {
        assert (a + b)[i] == a[i];
      }
      forall i | 0 <= i < |b| && b[i].Handle? ensures b[i].handle in Phases {
        assert (a + b)[|a| + i] == b[i];
      }
    }
  }

  /** Folding over a concatenation is folding over the second part from where the first ended. */
  lemma {:induction false} FoldConcat(w: Walk, a: seq<Route>, b: seq<Route>)
    requires WellFormed(w) && KnownPhases(a) && KnownPhases(b)
    ensures KnownPhases(a + b)
    ensures Fold(w, a + b) == Fold(Fold(w, a), b)
    decreases |a|
  {
    KnownPhasesConcat(a, b);
    if a != [] {
      assert (a + b)[0] == a[0];
      assert (a + b)[1..] == a[1..] + b;
      KnownPhasesConcat(a[1..], b);
      FoldConcat(Step(w, a[0]), a[1..], b);
    } else {
      assert a + b == b;
    }
  }

  /** The fold agrees with the reference definition: its phase is the last marker's, and
      each bucket holds exactly the rules governed by that phase, in source order. */
  lemma {:induction false} FoldMatchesReference(routes: seq<Route>)
    requires KnownPhases(routes)
    ensures Fold(Start, routes) == Walk(PhaseAfter(routes), Reference(routes))
    decreases |routes|
  {
    if routes == [] {
      assert Reference(routes) == EmptyBuckets();
    } else {
      var init, last := routes[..|routes| - 1], routes[|routes| - 1];
      KnownPhasesPrefix(routes, |routes| - 1);
      assert KnownPhases([last]);
      assert init + [last] == routes;
      FoldConcat(Start, init, [last]);
      FoldMatchesReference(init);
      assert Fold(Start, routes) == Step(Walk(PhaseAfter(init), Reference(init)), last);
      ReferenceStep(routes);
    }
  }

  /** The buckets of the reference definition. */
  function Reference(routes: seq<Route>): (b: Buckets)
    ensures b.Keys == Phases
  {
    map p | p in Phases :: Governed(routes, p)
  }

  /** The reference definition takes one Step per route, read from the end. */
  lemma ReferenceStep(routes: seq<Route>)
    requires routes != [] && PhaseAfter(routes[..|routes| - 1]) in Phases
    requires routes[|routes| - 1].Handle? ==> routes[|routes| - 1].handle in Phases
    ensures Step(Walk(PhaseAfter(routes[..|routes| - 1]), Reference(routes[..|routes| - 1])), routes[|routes| - 1])
            == Walk(PhaseAfter(routes), Reference(routes))
  {
    var init, last := routes[..|routes| - 1], routes[|routes| - 1];
    if last.Rule? {
      ReferenceAppendRule(routes, init, last);
    } else {
      ReferenceAppendMarker(routes, init, last);
    }
  }

  lemma ReferenceAppendRule(routes: seq<Route>, init: seq<Route>, last: Route)
    requires routes != [] && init == routes[..|routes| - 1] && last == routes[|routes| - 1]
    requires last.Rule? && PhaseAfter(init) in Phases
    ensures PhaseAfter(routes) == PhaseAfter(init)
    ensures Reference(routes) == Reference(init)[PhaseAfter(init) := Reference(init)[PhaseAfter(init)] + [last]]
  {
    var ph := PhaseAfter(init);
    var after := Reference(init)[ph := Reference(init)[ph] + [last]];
    forall p | p in Phases ensures after[p] == Reference(routes)[p] {
      GovernedLast(routes, p);
    }
  }

  lemma ReferenceAppendMarker(routes: seq<Route>, init: seq<Route>, last: Route)
    requires routes != [] && init == routes[..|routes| - 1] && last == routes[|routes| - 1]
    requires last.Handle?
    ensures PhaseAfter(routes) == last.handle
    ensures Reference(routes) == Reference(init)
  {
    forall p | p in Phases ensures Reference(init)[p] == Reference(routes)[p] {
      GovernedLast(routes, p);
    }
  }

  lemma GovernedLast(routes: seq<Route>, p: string)
    requires routes != []
    ensures var init, last := routes[..|routes| - 1], routes[|routes| - 1];
      Governed(routes, p) == if last.Rule? && PhaseAfter(init) == p then Governed(init, p) + [last] else Governed(init, p)
  {
    var init := routes[..|routes| - 1];
    assert Governed(init, p) + [] == Governed(init, p);
  }

  /** Every rule before any marker lands in "none", in order, and every other bucket is empty. */
  lemma {:induction false} NoMarkersAllInNone(routes: seq<Route>)
    requires forall i :: 0 <= i < |routes| ==> routes[i].Rule?
    ensures KnownPhases(routes)
    ensures Bucketize(routes)["none"] == routes
    ensures forall p :: p in Phases && p != "none" ==> Bucketize(routes)[p] == []
  {
    FoldMatchesReference(routes);
    GovernedWithoutMarkers(routes);
  }

  lemma {:induction false} GovernedWithoutMarkers(routes: seq<Route>)
    requires forall i :: 0 <= i < |routes| ==> routes[i].Rule?
    ensures PhaseAfter(routes) == "none"
    ensures Governed(routes, "none") == routes
    ensures forall p :: p != "none" ==> Governed(routes, p) == []
    decreases |routes|
  {
    if routes != [] {
      var init := routes[..|routes| - 1];
      GovernedWithoutMarkers(init);
      assert init + [routes[|routes| - 1]] == routes;
    }
  }

  /** A marker entry never lands in a bucket. */
  lemma {:induction false} BucketsHoldOnlyRules(routes: seq<Route>, p: string)
    requires KnownPhases(routes) && p in Phases
    ensures forall r :: r in Bucketize(routes)[p] ==> r.Rule?
  {
    FoldMatchesReference(routes);
    GovernedHoldsRules(routes, p);
  }

  lemma {:induction false} GovernedHoldsRules(routes: seq<Route>, p: string)
    ensures forall r :: r in Governed(routes, p) ==> r.Rule?
    decreases |routes|
  {
    if routes != [] {
      GovernedHoldsRules(routes[..|routes| - 1], p);
    }
  }

  /** Rules only (no marker) folded from phase `p` are appended, in order, to bucket `p`. */
  lemma {:induction false} FoldRulesOnly(w: Walk, rules: seq<Route>)
    requires WellFormed(w)
    requires forall i :: 0 <= i < |rules| ==> rules[i].Rule?
    ensures KnownPhases(rules)
    ensures Fold(w, rules) == Walk(w.phase, w.buckets[w.phase := w.buckets[w.phase] + rules])
    decreases |rules|
  {
    if rules == [] {
      assert w.buckets[w.phase] + rules == w.buckets[w.phase];
      assert w.buckets[w.phase := w.buckets[w.phase] + rules] == w.buckets;
    } else {
      FoldRulesOnly(Step(w, rules[0]), rules[1..]);
      assert (w.buckets[w.phase] + [rules[0]]) + rules[1..] == w.buckets[w.phase] + rules;
    }
  }

  /** After a marker for phase `P`, the rules up to the end of the list are appended to
      bucket `P` in their original order, and no other bucket changes. */
  lemma TrailingPhase(prefix: seq<Route>, P: string, rules: seq<Route>)
    requires KnownPhases(prefix) && P in Phases
    requires forall i :: 0 <= i < |rules| ==> rules[i].Rule?
    ensures KnownPhases(prefix + [Handle(P)] + rules)
    ensures Bucketize(prefix + [Handle(P)] + rules)[P] == Bucketize(prefix)[P] + rules
    ensures forall q :: q in Phases && q != P ==>
              Bucketize(prefix + [Handle(P)] + rules)[q] == Bucketize(prefix)[q]
  {
    FoldRulesOnly(Walk(P, Bucketize(prefix)), rules);
    assert KnownPhases([Handle(P)]);
    FoldConcat(Start, prefix, [Handle(P)]);
    KnownPhasesConcat(prefix, [Handle(P)]);
    FoldConcat(Start, prefix + [Handle(P)], rules);
  }
}
