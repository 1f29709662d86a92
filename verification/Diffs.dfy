/** Diff claims (claim.go, universe_default.go): a contribution/diff claim overlays its
    predecessor's named edges. Reading the overlay and reading the stored delta reach the
    same claims, so every walk may take whichever form is cheaper. */
module Diffs {
  import opened Graphs
  import opened Claims
  import opened Options

  // ---- The overlay ----

  function LastNamed(es: seq<Edge>): (m: map<string, Edge>)
    ensures forall n :: n in m ==> m[n] in es && m[n].name == Some(n)
    ensures forall e :: e in es && e.name.Some? ==> e.name.value in m
  {
    if es == [] then map[]
    else
      var m, e := LastNamed(es[..|es| - 1]), es[|es| - 1];
      if e.name.Some? then m[e.name.value := e] else m
  }

  function Unnamed(es: seq<Edge>): (u: seq<Edge>)
    ensures forall e :: e in u <==> e in es && e.name.None?
  {
    if es == [] then []
    else
      var u, e := Unnamed(es[..|es| - 1]), es[|es| - 1];
      if e.name.None? then u + [e] else u
  }

  ghost predicate DistinctNames(es: seq<Edge>) {
    forall i, j :: 0 <= i < j < |es| && es[i].name.Some? ==> es[i].name != es[j].name
  }

  function Overlay(inherited: map<string, Edge>, omit: set<string>, own: seq<Edge>): map<string, Edge> {
    (inherited - omit) + LastNamed(own)
  }

  predicate SortedBy(key: Edge -> nat, es: seq<Edge>) {
    forall i, j :: 0 <= i < j < |es| ==> key(es[i]) <= key(es[j])
  }

  lemma {:induction false} LastNamedDistinct(es: seq<Edge>, e: Edge)
    requires DistinctNames(es) && e in es && e.name.Some?
    ensures LastNamed(es)[e.name.value] == e
  {
    if e != es[|es| - 1] {
      LastNamedDistinct(es[..|es| - 1], e);
    }
  }

  lemma InsertedSorted(key: Edge -> nat, es: seq<Edge>, j: nat, e: Edge)
    requires SortedBy(key, es) && j <= |es|
    requires j > 0 ==> key(es[j - 1]) <= key(e)
    requires j < |es| ==> key(e) <= key(es[j])
    ensures SortedBy(key, es[..j] + [e] + es[j..])
  {
    forall k | 0 <= k < j ensures key(es[k]) <= key(e) {
      assert key(es[k]) <= key(es[j - 1]);
    }
    forall k | j <= k < |es| ensures key(e) <= key(es[k]) {
      assert key(es[j]) <= key(es[k]);
    }
  }

  method InsertEdge(es: seq<Edge>, e: Edge, key: Edge -> nat) returns (out: seq<Edge>)
    requires SortedBy(key, es)
    ensures SortedBy(key, out) && multiset(out) == multiset(es) + multiset{e}
  {
    var j := |es|;
    while j > 0 && key(es[j - 1]) > key(e)
      invariant 0 <= j <= |es|
      invariant j < |es| ==> key(es[j]) > key(e)
    {
      j := j - 1;
    }
    InsertedSorted(key, es, j, e);
    assert es == es[..j] + es[j..];
    out := es[..j] + [e] + es[j..];
  }

  /** The last stage of the merge: the edges in canonical order. */
  method SortEdges(es: seq<Edge>, key: Edge -> nat) returns (out: seq<Edge>)
    ensures SortedBy(key, out) && multiset(out) == multiset(es)
  {
    out := [];
    for i := 0 to |es|
      invariant SortedBy(key, out) && multiset(out) == multiset(es[..i])
    {
      out := InsertEdge(out, es[i], key);
      assert es[..i + 1] == es[..i] + [es[i]];
    }
    assert es[..|es|] == es;
  }

  lemma NextNamed(es: seq<Edge>, i: nat)
    requires i < |es|
    ensures LastNamed(es[..i + 1]) ==
      if es[i].name.Some? then LastNamed(es[..i])[es[i].name.value := es[i]] else LastNamed(es[..i])
    ensures Unnamed(es[..i + 1]) == if es[i].name.Some? then Unnamed(es[..i]) else Unnamed(es[..i]) + [es[i]]
  {
    assert es[..i + 1][..i] == es[..i];
  }

  method InheritNamed(inherited: seq<Edge>) returns (named: map<string, Edge>)
    ensures named == LastNamed(inherited)
  {
    named := map[];
    for i := 0 to |inherited|
      invariant named == LastNamed(inherited[..i])
    {
      NextNamed(inherited, i);
      if inherited[i].name.Some? {
        named := named[inherited[i].name.value := inherited[i]];
      }
    }
    assert inherited[..|inherited|] == inherited;
  }

  lemma OverlayUpdate(base: map<string, Edge>, m: map<string, Edge>, n: string, e: Edge)
    ensures base + m[n := e] == (base + m)[n := e]
  {
  }

  method OverlayOwn(base: map<string, Edge>, own: seq<Edge>)
    returns (named: map<string, Edge>, singles: seq<Edge>)
    ensures named == base + LastNamed(own) && singles == Unnamed(own)
  {
    named, singles := base, [];
    for i := 0 to |own|
      invariant named == base + LastNamed(own[..i])
      invariant singles == Unnamed(own[..i])
    {
      NextNamed(own, i);
      if own[i].name.Some? {
        OverlayUpdate(base, LastNamed(own[..i]), own[i].name.value, own[i]);
        named := named[own[i].name.value := own[i]];
      } else {
        singles := singles + [own[i]];
      }
    }
    assert own[..|own|] == own;
  }

  ghost predicate NamesMatch(m: map<string, Edge>) {
    forall n :: n in m ==> m[n].name == Some(n)
  }

  method AppendValues(singles: seq<Edge>, named: map<string, Edge>) returns (out: seq<Edge>)
    requires NamesMatch(named) && forall e :: e in singles ==> e.name.None?
    ensures forall e :: e in out <==> e in singles || e in named.Values
    ensures DistinctNames(out)
  {
    out := singles;
    var names := named.Keys;
    while names != {}
      invariant names <= named.Keys
      invariant forall e :: e in singles ==> e in out
      invariant forall n :: n in named && n !in names ==> named[n] in out
      invariant forall e :: e in out ==> e in singles || e in named.Values
      invariant forall e :: e in out && e.name.Some? ==> e.name.value !in names
      invariant DistinctNames(out)
      decreases names
    {
      var n :| n in names;
      names := names - {n};
      out := out + [named[n]];
    }
  }

  /** computeDiffEdges: of the predecessor its named edges less the omitted names, and over them
      all of the claim's own, the named ones replacing. A map is ranged over in no
      particular order; the sort then puts the edges in the canonical one. */
  method ComputeDiffEdges(inherited: seq<Edge>, omit: set<string>, own: seq<Edge>, key: Edge -> nat)
    returns (out: seq<Edge>)
    ensures forall e :: e in out <==>
      e in Unnamed(own) || e in Overlay(LastNamed(inherited), omit, own).Values
    ensures LastNamed(out) == Overlay(LastNamed(inherited), omit, own)
    ensures SortedBy(key, out)
  {
    var base := InheritNamed(inherited);
    var named, singles := OverlayOwn(base - omit, own);
    var merged := AppendValues(singles, named);
    out := SortEdges(merged, key);
    SameElements(merged, out);
    SortedNames(singles, named, merged, out);
  }

  lemma SortedNames(singles: seq<Edge>, named: map<string, Edge>, merged: seq<Edge>, out: seq<Edge>)
    requires NamesMatch(named) && DistinctNames(merged) && multiset(merged) == multiset(out)
    requires forall e :: e in singles ==> e.name.None?
    requires forall e :: e in merged <==> e in singles || e in named.Values
    ensures LastNamed(out) == named
  {
    SameElements(merged, out);
    DistinctPermutation(merged, out);
    forall n | n in named ensures n in LastNamed(out) && LastNamed(out)[n] == named[n] {
      assert named[n] in out;
      LastNamedDistinct(out, named[n]);
    }
    forall n | n in LastNamed(out) ensures n in named {
      assert LastNamed(out)[n] in merged;
    }
  }

  lemma SameElements(a: seq<Edge>, b: seq<Edge>)
    requires multiset(a) == multiset(b)
    ensures forall e :: e in a <==> e in b
  {
    forall e ensures e in a <==> e in b {
      assert e in a <==> e in multiset(a);
      assert e in b <==> e in multiset(b);
    }
  }

  lemma DistinctPermutation(a: seq<Edge>, b: seq<Edge>)
    requires multiset(a) == multiset(b) && DistinctNames(a)
    ensures DistinctNames(b)
  {
    forall i, j | 0 <= i < j < |b| && b[i].name.Some? ensures b[i].name != b[j].name {
      if b[i].name == b[j].name {
        assert b[i] in multiset(a) && b[j] in multiset(a);
        if b[i] == b[j] {
          assert b == b[..i] + [b[i]] + b[i + 1..j] + [b[j]] + b[j + 1..];
          assert multiset(b)[b[i]] >= 2;
          OnlyOnce(a, b[i]);
        }
      }
    }
  }

  lemma {:induction false} OnlyOnce(a: seq<Edge>, e: Edge)
    requires DistinctNames(a) && e.name.Some?
    ensures multiset(a)[e] <= 1
  {
    if a != [] {
      var n := |a| - 1;
      assert a == a[..n] + [a[n]];
      OnlyOnce(a[..n], e);
    }
  }

  // ---- Materialised claims ----

  function DiffOf(es: seq<Edge>): (p: Option<Id>)
    ensures p.Some? ==> exists e :: e in es && e.kind == EDGE_DIFF && e.reference == p.value
  {
    if es == [] then None
    else if es[0].kind == EDGE_DIFF then Some(es[0].reference)
    else DiffOf(es[1..])
  }

  lemma {:induction false} FindsDiff(es: seq<Edge>, d: Edge)
    requires d in es && d.kind == EDGE_DIFF && forall e :: e in es && e.kind == EDGE_DIFF ==> e == d
    ensures DiffOf(es) == Some(d.reference)
  {
    if es[0].kind != EDGE_DIFF {
      FindsDiff(es[1..], d);
    }
  }

  lemma {:induction false} FindsNoDiff(es: seq<Edge>)
    requires forall e :: e in es ==> e.kind != EDGE_DIFF
    ensures DiffOf(es) == None
  {
    if es != [] {
      FindsNoDiff(es[1..]);
    }
  }

  datatype View = View(edges: set<Edge>, named: map<string, Edge>)

  /** materializeOne: the edges a read presents, None when a predecessor is not held. */
  ghost function Materialized(s: Store, a: Id): (v: Option<View>)
    requires Acyclic(s)
    ensures v.Some? ==> a in s
    decreases Rank(s)(a)
  {
    if a !in s then None
    else
      var own := s[a].edges;
      match DiffOf(own)
      case None => Some(View(EdgeSet(own), LastNamed(own)))
      case Some(p) =>
        var below := Materialized(s, p);
        if below.None? then None
        else
          var named := Overlay(below.value.named, s[a].edgesOmit, own);
          Some(View(EdgeSet(Unnamed(own)) + named.Values, named))
  }

  /** The loader's recursion: load the predecessor materialised, then merge over it. */
  method MaterializeOne(s: Store, a: Id, key: Edge -> nat) returns (es: Option<seq<Edge>>)
    requires Acyclic(s)
    ensures es.Some? <==> Materialized(s, a).Some?
    ensures es.Some? ==> Materialized(s, a) == Some(View(EdgeSet(es.value), LastNamed(es.value)))
    decreases Rank(s)(a)
  {
    if a !in s {
      return None;
    }
    var own := s[a].edges;
    var p := DiffOf(own);
    if p.None? {
      return Some(own);
    }
    var below := MaterializeOne(s, p.value, key);
    if below.None? {
      return None;
    }
    var out := ComputeDiffEdges(below.value, s[a].edgesOmit, own, key);
    assert EdgeSet(out) == EdgeSet(Unnamed(own)) + Overlay(LastNamed(below.value), s[a].edgesOmit, own).Values;
    es := Some(out);
  }

  ghost function Material(s: Store): (g: Graph)
    requires Acyclic(s)
  {
    map a | a in s && Materialized(s, a).Some? :: Targets(Materialized(s, a).value.edges)
  }

  /** Diff claims restate each name once. The claim builder holds every diff claim to it. */
  ghost predicate DiffsDistinct(s: Store) {
    forall a :: a in s && DiffOf(s[a].edges).Some? ==> DistinctNames(s[a].edges)
  }

  // ---- The two readings reach the same claims ----

  lemma CompleteMaterializes(s: Store, a: Id)
    requires Acyclic(s) && Complete(Delta(s), a)
    ensures Materialized(s, a).Some?
    decreases Rank(s)(a)
  {
    ReachRefl(Delta(s), a);
    var own := s[a].edges;
    if DiffOf(own).Some? {
      var e :| e in own && e.kind == EDGE_DIFF && e.reference == DiffOf(own).value;
      assert Step(Delta(s), a, e.reference);
      CompleteBelow(Delta(s), a, e.reference);
      ReachRefl(Delta(s), e.reference);
      CompleteMaterializes(s, e.reference);
    }
  }

  /** Whatever a materialised claim shows was restated by it or by a claim below it. */
  lemma {:induction false} ShownIsReached(s: Store, a: Id, e: Edge)
    requires Acyclic(s) && Materialized(s, a).Some?
    requires e in Materialized(s, a).value.edges || e in Materialized(s, a).value.named.Values
    ensures Reach(Delta(s), a, e.reference)
    decreases Rank(s)(a)
  {
    var own := s[a].edges;
    if e in own {
      assert Step(Delta(s), a, e.reference);
      ReachStep(Delta(s), a, e.reference);
    } else {
      var d :| d in own && d.kind == EDGE_DIFF && d.reference == DiffOf(own).value;
      assert Step(Delta(s), a, d.reference);
      ReachStep(Delta(s), a, d.reference);
      ShownIsReached(s, d.reference, e);
      ReachTrans(Delta(s), a, d.reference, e.reference);
    }
  }

  lemma OwnIsShown(s: Store, a: Id, e: Edge)
    requires Acyclic(s) && DiffsDistinct(s) && Materialized(s, a).Some? && e in s[a].edges
    ensures e in Materialized(s, a).value.edges
  {
    var own := s[a].edges;
    if DiffOf(own).Some? && e.name.Some? {
      LastNamedDistinct(own, e);
      var named := Materialized(s, a).value.named;
      assert named[e.name.value] == e;
    }
  }

  lemma OwnStep(s: Store, a: Id, c: Id)
    requires Acyclic(s) && DiffsDistinct(s) && Materialized(s, a).Some? && Step(Delta(s), a, c)
    ensures Step(Material(s), a, c)
  {
    var e :| e in s[a].edges && e.reference == c;
    OwnIsShown(s, a, e);
  }

  lemma MaterialStep(s: Store, a: Id, c: Id)
    requires Acyclic(s) && Step(Material(s), a, c)
    ensures Reach(Delta(s), a, c)
  {
    var e :| e in Materialized(s, a).value.edges && e.reference == c;
    ShownIsReached(s, a, e);
  }

  /** The sweep over materialised reads and the walk over stored deltas decide the same
      membership, in every complete closure. */
  lemma DeltaMaterialAgree(s: Store, a: Id)
    requires Acyclic(s) && DiffsDistinct(s) && Complete(Delta(s), a)
    ensures forall b :: Reach(Material(s), a, b) <==> Reach(Delta(s), a, b)
    ensures Complete(Material(s), a)
  {
    forall b ensures Reach(Material(s), a, b) <==> Reach(Delta(s), a, b) {
      if Reach(Material(s), a, b) {
        var n: nat :| ReachIn(Material(s), a, b, n);
        forall x, y | Step(Material(s), x, y) ensures Reach(Delta(s), x, y) {
          MaterialStep(s, x, y);
        }
        Simulated(Delta(s), Material(s), a, b, n);
      }
      if Reach(Delta(s), a, b) {
        var n: nat :| ReachIn(Delta(s), a, b, n);
        forall x, y | Complete(Delta(s), x) && Step(Delta(s), x, y) ensures Step(Material(s), x, y) {
          CompleteMaterializes(s, x);
          OwnStep(s, x, y);
        }
        CompleteWalk(Delta(s), Material(s), a, b, n);
      }
    }
    forall b | Reach(Material(s), a, b) ensures b in Material(s) {
      CompleteAt(Delta(s), a, b);
      CompleteMaterializes(s, b);
    }
  }

  lemma LastOfName(es: seq<Edge>, n: string)
    requires es != [] && es[|es| - 1].name == Some(n)
    requires forall e :: e in es && e.name.Some? ==> e.name == Some(n)
    ensures LastNamed(es) == map[n := es[|es| - 1]]
  {
    assert LastNamed(es)[n] == es[|es| - 1];
    assert LastNamed(es).Keys == {n};
  }

  lemma TinyGraph(g: Graph)
    requires g.Keys == {0, 1, 2, 3} && g[0] == {} && g[1] == g[2] == {0} && 1 in g[3] && g[3] <= {0, 1, 2}
    ensures Complete(g, 3) && Reach(g, 3, 1)
  {
    assert Closed(g, {0, 1, 2, 3});
    forall b | Reach(g, 3, b) ensures b in g {
      ClosedHolds(g, {0, 1, 2, 3}, 3, b);
    }
    ReachStep(g, 3, 1);
  }

  lemma TinyOverlay(m: Graph)
    requires Refs(m, 0) == {} && Refs(m, 2) == {0} && Refs(m, 3) <= {0, 2}
    ensures !Reach(m, 3, 1)
  {
    assert Closed(m, {0, 2, 3});
    if Reach(m, 3, 1) {
      ClosedHolds(m, {0, 2, 3}, 3, 1);
    }
  }

  lemma PlainShows(s: Store, a: Id)
    requires Acyclic(s) && a in s && forall e :: e in s[a].edges ==> e.kind != EDGE_DIFF && e.name.None?
    ensures Materialized(s, a) == Some(View(EdgeSet(s[a].edges), map[]))
  {
    FindsNoDiff(s[a].edges);
    assert LastNamed(s[a].edges).Keys == {};
  }

  lemma NothingInherited(omit: set<string>, own: seq<Edge>)
    ensures Overlay(map[], omit, own) == LastNamed(own)
  {
  }

  /** Over a predecessor without names, of edges that all restate one name only the last is
      shown. */
  lemma LastIsShown(s: Store, a: Id, o: Edge, y: Edge)
    requires Acyclic(s) && a in s && s[a].edges != [] && s[a].edges[|s[a].edges| - 1] == y && y.name.Some?
    requires forall e :: e in s[a].edges && e.name.Some? ==> e.name == y.name
    requires DiffOf(s[a].edges) == Some(o.reference)
    requires Materialized(s, o.reference).Some? && Materialized(s, o.reference).value.named == map[]
    ensures Materialized(s, a).Some?
    ensures forall e :: e in Materialized(s, a).value.edges ==> e in s[a].edges && (e.name.Some? ==> e == y)
  {
    LastOfName(s[a].edges, y.name.value);
    NothingInherited(s[a].edgesOmit, s[a].edges);
  }

  lemma DuplicateDelta(s: Store, c: Edge, o: Edge, x: Edge, y: Edge)
    requires s.Keys == {0, 1, 2, 3} && s[0].edges == [] && s[1].edges == s[2].edges == [c]
    requires s[3].edges == [c, o, x, y] && c.reference == 0 && x.reference == 1 && o.reference == y.reference == 2
    ensures Acyclic(s) && Complete(Delta(s), 3) && Reach(Delta(s), 3, 1)
  {
    assert Ranks(s, a => a);
    assert c in s[1].edges && c in s[2].edges && x in s[3].edges;
    assert Delta(s)[1] == Delta(s)[2] == {0};
    TinyGraph(Delta(s));
  }

  lemma DuplicateMaterial(s: Store, c: Edge, o: Edge, x: Edge, y: Edge)
    requires Acyclic(s) && {0, 2, 3} <= s.Keys && s[0].edges == [] && s[2].edges == [c]
    requires s[3].edges == [c, o, x, y] && c.reference == 0 && o.reference == y.reference == 2
    requires c.kind != EDGE_DIFF && c.name.None? && o.kind == EDGE_DIFF && o.name.None?
    requires x.kind != EDGE_DIFF && y.kind != EDGE_DIFF && x != y && x.name.Some? && x.name == y.name
    ensures !Reach(Material(s), 3, 1)
  {
    PlainShows(s, 0);
    PlainShows(s, 2);
    FindsDiff(s[3].edges, o);
    LastIsShown(s, 3, o, y);
    assert c in s[2].edges;
    TinyOverlay(Material(s));
  }

  /** Without distinct names the two readings part: of two edges restating one name the
      overlay keeps the last, and what only the first referenced is lost to it. Here 0 is the
      contributor. */
  lemma DuplicateNamesPart(s: Store, o: Edge, x: Edge, y: Edge)
    requires s.Keys == {0, 1, 2, 3} && Attributed(s, 0) && |s[1].edges| == |s[2].edges| == 1
    requires s[3].edges == [Edge(0, EDGE_CONTRIBUTOR, None, None), o, x, y]
    requires o == Edge(2, EDGE_DIFF, None, None)
    requires x == Edge(1, EDGE_BRANCH, Some("n"), None) && y == Edge(2, EDGE_BRANCH, Some("n"), None)
    ensures Acyclic(s) && Complete(Delta(s), 3)
    ensures Reach(Delta(s), 3, 1) && !Reach(Material(s), 3, 1)
  {
    var c := Edge(0, EDGE_CONTRIBUTOR, None, None);
    assert s[1].edges == s[2].edges == [c];
    DuplicateDelta(s, c, o, x, y);
    DuplicateMaterial(s, c, o, x, y);
  }
}
