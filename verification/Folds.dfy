/** What folding a branch and restating the branch table mean (concurrent.go, dev.go,
    archive.go), apart from how either Sequencer carries them out. */
module Folds {
  import opened Graphs
  import opened Claims
  import opened Options
  import opened Diffs

  // ---- Folding heads into a branch ----

  function Optional(a: Option<Id>): set<Id> {
    if a.Some? then {a.value} else {}
  }

  /** roots stand for the prior head and the contributed ones: whatever is left out is reached
      by the prior head, and the prior head, when left out, by a root. */
  ghost predicate FoldsTo(g: Graph, prior: Option<Id>, contributed: set<Id>, roots: set<Id>) {
    && roots <= contributed + Optional(prior)
    && (forall h :: h in contributed ==> h in roots || (prior.Some? && Reach(g, prior.value, h)))
    && (prior.Some? ==> prior.value in roots || Reaches(g, roots, prior.value))
  }

  /** What a branch must hold after contributed has been merged onto prior. */
  ghost predicate Covered(g: Graph, prior: Option<Id>, contributed: set<Id>, a: Id) {
    Reaches(g, Optional(prior), a) || Reaches(g, contributed, a)
  }

  lemma FoldCovers(g: Graph, prior: Option<Id>, contributed: set<Id>, roots: set<Id>)
    requires FoldsTo(g, prior, contributed, roots)
    ensures forall a :: Reaches(g, roots, a) <==> Covered(g, prior, contributed, a)
  {
    forall a ensures Reaches(g, roots, a) <==> Covered(g, prior, contributed, a) {
      if Reaches(g, Optional(prior), a) && prior.value !in roots {
        ReachesTrans(g, roots, prior.value, a);
      }
      if Reaches(g, contributed, a) {
        var h :| h in contributed && Reach(g, h, a);
        if h !in roots {
          ReachTrans(g, prior.value, h, a);
          if prior.value !in roots {
            ReachesTrans(g, roots, prior.value, a);
          }
        }
      }
    }
  }

  /** h heads a branch holding exactly what prior and the contributed heads reach. A minted
      head adds itself and the closure of the Sequencer's own contributor claim. */
  ghost predicate Carries(s: Store, self: Id, prior: Option<Id>, contributed: set<Id>, h: Id, minted: bool) {
    && (minted ==> h in s && s[h].kind == NODE_HEAD)
    && forall a :: Reach(Delta(s), h, a) <==>
      Covered(Delta(s), prior, contributed, a) || (minted && (a == h || Reach(Delta(s), self, a)))
  }

  ghost predicate Merged(s: Store, self: Id, prior: Option<Id>, contributed: set<Id>, h: Id) {
    exists minted :: Carries(s, self, prior, contributed, h, minted)
  }

  lemma SingleCarries(s: Store, self: Id, prior: Option<Id>, contributed: set<Id>, h: Id)
    requires FoldsTo(Delta(s), prior, contributed, {h})
    ensures Carries(s, self, prior, contributed, h, false)
  {
    FoldCovers(Delta(s), prior, contributed, {h});
  }

  lemma HeadCarries(s: Store, self: Id, prior: Option<Id>, contributed: set<Id>, roots: set<Id>, h: Id)
    requires FoldsTo(Delta(s), prior, contributed, roots)
    requires h in s && s[h].kind == NODE_HEAD && Refs(Delta(s), h) == roots + {self}
    ensures Carries(s, self, prior, contributed, h, true)
  {
    var g := Delta(s);
    FoldCovers(g, prior, contributed, roots);
    ClosureOfNode(g, h);
    forall a ensures Reach(g, h, a) <==> Covered(g, prior, contributed, a) || a == h || Reach(g, self, a) {
      if Reach(g, self, a) {
        assert Step(g, h, self);
      }
      if Reaches(g, roots, a) {
        var r :| r in roots && Reach(g, r, a);
        assert Step(g, h, r);
      }
    }
  }

  /** h is what a fold made of its roots: the one root itself, or a head minted over them. */
  ghost predicate Folded(s: Store, self: Id, prior: Option<Id>, contributed: set<Id>, h: Id) {
    exists roots :: FoldsTo(Delta(s), prior, contributed, roots) && Heads(s, self, roots, h)
  }

  predicate Heads(s: Store, self: Id, roots: set<Id>, h: Id) {
    roots == {h} || (h in s && s[h].kind == NODE_HEAD && Refs(Delta(s), h) == roots + {self})
  }

  /** No update is lost: a folded branch holds the union of what it held and what came in. */
  lemma FoldLosesNothing(s: Store, self: Id, prior: Option<Id>, contributed: set<Id>, h: Id)
    requires Folded(s, self, prior, contributed, h)
    ensures Merged(s, self, prior, contributed, h)
  {
    var roots :| FoldsTo(Delta(s), prior, contributed, roots) && Heads(s, self, roots, h);
    if roots == {h} {
      SingleCarries(s, self, prior, contributed, h);
    } else {
      HeadCarries(s, self, prior, contributed, roots, h);
    }
  }

  lemma KeptFolds(s: Store, self: Id, h: Id, contributed: set<Id>)
    requires forall c :: c in contributed ==> Reach(Delta(s), h, c)
    ensures Folded(s, self, Some(h), contributed, h)
  {
    assert FoldsTo(Delta(s), Some(h), contributed, {h});
  }

  lemma FoldedGrows(s: Store, s': Store, self: Id, prior: Option<Id>, contributed: set<Id>, h: Id)
    requires Grows(s, s') && Folded(s, self, prior, contributed, h)
    ensures Folded(s', self, prior, contributed, h)
  {
    var roots :| FoldsTo(Delta(s), prior, contributed, roots) && Heads(s, self, roots, h);
    FoldsGrow(s, s', prior, contributed, roots);
    assert Heads(s', self, roots, h);
  }

  /** Growing the store keeps what a fold chose, so the mint may land after the closure tests. */
  lemma FoldsGrow(s: Store, s': Store, prior: Option<Id>, contributed: set<Id>, roots: set<Id>)
    requires Grows(s, s') && FoldsTo(Delta(s), prior, contributed, roots)
    ensures FoldsTo(Delta(s'), prior, contributed, roots)
  {
    GrowsDelta(s, s');
    forall a, b | Reach(Delta(s), a, b) ensures Reach(Delta(s'), a, b) {
      var n: nat :| ReachIn(Delta(s), a, b, n);
      ExtendWalk(Delta(s), Delta(s'), a, b, n);
    }
  }

  // ---- Branch tables ----

  function BranchEdges(changed: map<string, Id>): set<Edge> {
    set n | n in changed :: Edge(changed[n], EDGE_BRANCH, Some(n), None)
  }

  function TableEdges(prev: Option<Id>, self: Id, changed: map<string, Id>): set<Edge> {
    BranchEdges(changed) + {Edge(self, EDGE_CONTRIBUTOR, None, None)} +
    (if prev.Some? then {Edge(prev.value, EDGE_DIFF, None, None)} else {})
  }

  ghost predicate IsTable(c: Claim, prev: Option<Id>, self: Id, changed: map<string, Id>) {
    && c.kind == NODE_BRANCHES && c.edgesOmit == {}
    && EdgeSet(c.edges) == TableEdges(prev, self, changed)
    && DistinctNames(c.edges)
  }

  /** loadBranches off a materialised table: the branch edges by name. */
  function BranchTable(named: map<string, Edge>): map<string, Id> {
    map n | n in named && named[n].kind == EDGE_BRANCH :: named[n].reference
  }

  ghost predicate IsOpen(s: Store, k: Id) {
    Acyclic(s) && Materialized(s, k).Some?
  }

  /** The branches of the archive at k. */
  ghost function Branches(s: Store, k: Id): map<string, Id>
    requires IsOpen(s, k)
  {
    BranchTable(Materialized(s, k).value.named)
  }

  lemma {:induction false} MaterializedGrows(s: Store, s': Store, a: Id)
    requires Acyclic(s) && Acyclic(s') && Grows(s, s') && Materialized(s, a).Some?
    ensures Materialized(s', a) == Materialized(s, a)
    decreases Rank(s)(a)
  {
    var p := DiffOf(s[a].edges);
    if p.Some? {
      MaterializedGrows(s, s', p.value);
    }
  }

  lemma TableEdge(es: seq<Edge>, prev: Option<Id>, self: Id, changed: map<string, Id>, e: Edge)
    requires EdgeSet(es) == TableEdges(prev, self, changed) && e in es
    ensures e.name.Some? ==> e.name.value in changed && e == Edge(changed[e.name.value], EDGE_BRANCH, e.name, None)
    ensures e.kind == EDGE_DIFF ==> prev.Some? && e == Edge(prev.value, EDGE_DIFF, None, None)
  {
    assert e in EdgeSet(es);
  }

  lemma TableNames(es: seq<Edge>, prev: Option<Id>, self: Id, changed: map<string, Id>)
    requires EdgeSet(es) == TableEdges(prev, self, changed) && DistinctNames(es)
    ensures LastNamed(es).Keys == changed.Keys
    ensures forall n :: n in changed ==> LastNamed(es)[n] == Edge(changed[n], EDGE_BRANCH, Some(n), None)
  {
    forall n | n in changed
      ensures n in LastNamed(es) && LastNamed(es)[n] == Edge(changed[n], EDGE_BRANCH, Some(n), None)
    {
      var e := Edge(changed[n], EDGE_BRANCH, Some(n), None);
      assert e in EdgeSet(es);
      LastNamedDistinct(es, e);
    }
    forall n | n in LastNamed(es) ensures n in changed {
      TableEdge(es, prev, self, changed, LastNamed(es)[n]);
    }
  }

  lemma TableDiff(es: seq<Edge>, prev: Option<Id>, self: Id, changed: map<string, Id>)
    requires EdgeSet(es) == TableEdges(prev, self, changed)
    ensures DiffOf(es) == prev
  {
    forall e | e in es && e.kind == EDGE_DIFF ensures prev.Some? && e == Edge(prev.value, EDGE_DIFF, None, None) {
      TableEdge(es, prev, self, changed, e);
    }
    if prev.Some? {
      assert Edge(prev.value, EDGE_DIFF, None, None) in EdgeSet(es);
      FindsDiff(es, Edge(prev.value, EDGE_DIFF, None, None));
    } else {
      FindsNoDiff(es);
    }
  }

  /** A table over a previous one shows the previous branches, the changed ones restated. */
  lemma TableRestates(s: Store, t: Id, prev: Id, self: Id, changed: map<string, Id>)
    requires IsOpen(s, prev) && t in s && IsTable(s[t], Some(prev), self, changed)
    ensures IsOpen(s, t) && Branches(s, t) == Branches(s, prev) + changed
  {
    TableNames(s[t].edges, Some(prev), self, changed);
    TableDiff(s[t].edges, Some(prev), self, changed);
    BranchOverlay(Materialized(s, prev).value.named, s[t].edges, changed);
  }

  lemma BranchOverlay(inherited: map<string, Edge>, own: seq<Edge>, changed: map<string, Id>)
    requires LastNamed(own).Keys == changed.Keys
    requires forall n :: n in changed ==> LastNamed(own)[n] == Edge(changed[n], EDGE_BRANCH, Some(n), None)
    ensures BranchTable(Overlay(inherited, {}, own)) == BranchTable(inherited) + changed
  {
  }

  lemma TableIsNew(s: Store, t: Id, prev: Id, self: Id, changed: map<string, Id>)
    requires Acyclic(s) && t in s && IsTable(s[t], Some(prev), self, changed)
    ensures t != prev
  {
    assert Edge(prev, EDGE_DIFF, None, None) in EdgeSet(s[t].edges);
    assert Rank(s)(prev) < Rank(s)(t);
  }

  lemma FirstTable(s: Store, t: Id, self: Id, changed: map<string, Id>)
    requires Acyclic(s) && t in s && IsTable(s[t], None, self, changed)
    ensures IsOpen(s, t) && Branches(s, t) == changed
  {
    TableNames(s[t].edges, None, self, changed);
    TableDiff(s[t].edges, None, self, changed);
  }

  /** A materialised table names each of its branches, and names nothing twice. */
  ghost predicate Tabular(v: View) {
    forall e :: e in v.edges ==>
      && (e.kind == EDGE_BRANCH ==> e.name.Some?)
      && (e.name.Some? ==> e.name.value in v.named && v.named[e.name.value] == e)
  }

  /** Every table the Sequencer mints is of that form, whatever it is minted over. */
  lemma MintedIsTabular(s: Store, t: Id, prev: Option<Id>, self: Id, changed: map<string, Id>)
    requires IsOpen(s, t) && IsTable(s[t], prev, self, changed)
    ensures Tabular(Materialized(s, t).value)
  {
    var own := s[t].edges;
    TableDiff(own, prev, self, changed);
    TableNamesBranches(own, prev, self, changed);
    if prev.Some? {
      NamedByName(s, prev.value);
      OverlayTabular(Materialized(s, prev.value).value.named, s[t].edgesOmit, own);
    } else {
      OwnTabular(own);
    }
  }

  lemma TableNamesBranches(own: seq<Edge>, prev: Option<Id>, self: Id, changed: map<string, Id>)
    requires EdgeSet(own) == TableEdges(prev, self, changed)
    ensures forall e :: e in own && e.kind == EDGE_BRANCH ==> e.name.Some?
  {
    forall e | e in own && e.kind == EDGE_BRANCH ensures e.name.Some? {
      assert e in EdgeSet(own);
    }
  }

  lemma OwnTabular(own: seq<Edge>)
    requires DistinctNames(own) && forall e :: e in own && e.kind == EDGE_BRANCH ==> e.name.Some?
    ensures Tabular(View(EdgeSet(own), LastNamed(own)))
  {
    forall e | e in own && e.name.Some? ensures LastNamed(own)[e.name.value] == e {
      LastNamedDistinct(own, e);
    }
  }

  lemma OverlayTabular(inherited: map<string, Edge>, omit: set<string>, own: seq<Edge>)
    requires DistinctNames(own) && forall e :: e in own && e.kind == EDGE_BRANCH ==> e.name.Some?
    requires NamesMatch(inherited)
    ensures var named := Overlay(inherited, omit, own); Tabular(View(EdgeSet(Unnamed(own)) + named.Values, named))
  {
    var named := Overlay(inherited, omit, own);
    forall e | e in named.Values ensures e.name.Some? && e.name.value in named && named[e.name.value] == e {
      var n :| n in named && named[n] == e;
    }
  }

  lemma {:induction false} NamedByName(s: Store, a: Id)
    requires Acyclic(s) && Materialized(s, a).Some?
    ensures NamesMatch(Materialized(s, a).value.named)
    decreases Rank(s)(a)
  {
    var p := DiffOf(s[a].edges);
    if p.Some? {
      NamedByName(s, p.value);
    }
  }

  /** An archive head reaches every branch it carries, restated by it or not. */
  lemma TableReaches(s: Store, t: Id, b: string)
    requires IsOpen(s, t) && b in Branches(s, t)
    ensures Reach(Delta(s), t, Branches(s, t)[b])
  {
    ShownIsReached(s, t, Materialized(s, t).value.named[b]);
  }
}
