/** Closure membership (query_default.go): the delta walk that answers "is this claim below
    one of these heads", and the materialised sweep that confines a read to its scope. */
module Membership {
  import opened Graphs
  import opened Claims
  import opened Options
  import opened Diffs

  function Named(ids: seq<Option<Id>>): (r: set<Id>)
    ensures forall a :: a in r <==> Some(a) in ids
  {
    set o | o in ids && o.Some? :: o.value
  }

  lemma Heads(ids: seq<Option<Id>>, queue: seq<Id>, i: nat)
    requires i < |ids| && forall a :: a in queue <==> a in Named(ids[..i])
    ensures ids[i].None? ==> Named(ids[..i + 1]) == Named(ids[..i])
    ensures ids[i].Some? ==> forall a :: a in queue + [ids[i].value] <==> a in Named(ids[..i + 1])
  {
    assert ids[..i + 1] == ids[..i] + [ids[i]];
  }

  /** InClosure over GetFromClosure. A gap met on the way is reported as absence, so a yes is
      always true while a no is exact where the walk meets no gap. */
  method InClosure(s: Store, heads: seq<Option<Id>>, id: Id, key: Edge -> nat) returns (held: bool)
    requires Acyclic(s)
    ensures held ==> Reaches(Delta(s), Named(heads), id)
    ensures (forall h :: h in Named(heads) ==> Complete(Delta(s), h)) ==>
      (held <==> Reaches(Delta(s), Named(heads), id))
  {
    ghost var g, roots := Delta(s), Named(heads);
    var queue: seq<Id> := [];
    for i := 0 to |heads|
      invariant forall a :: a in queue <==> a in Named(heads[..i])
    {
      Heads(heads, queue, i);
      if heads[i].Some? {
        queue := queue + [heads[i].value];
      }
    }
    assert heads[..|heads|] == heads;
    var seen: set<Id> := {};
    WorklistStart(g, roots, queue);
    while queue != []
      invariant Worklist(g, roots, seen, queue)
      invariant id !in seen
      decreases Mentioned(g, roots) - seen, |queue|
    {
      var cur := queue[0];
      assert Waiting(seen, queue, cur);
      if cur in seen {
        WorklistSkip(g, roots, seen, queue);
        queue := queue[1..];
        continue;
      }
      if cur == id {
        var c := MaterializeOne(s, id, key);
        if forall h :: h in roots ==> Complete(g, h) {
          ReachedComplete(g, roots, id);
          CompleteMaterializes(s, id);
        }
        return c.Some?;
      }
      if cur !in s {
        if forall h :: h in roots ==> Complete(g, h) {
          ReachedComplete(g, roots, cur);
          ReachRefl(g, cur);
        }
        return false;
      }
      InMentioned(g, roots, cur);
      var refs := References(s[cur].edges);
      WorklistExpand(g, roots, seen, queue, refs);
      seen, queue := seen + {cur}, queue[1..] + refs;
    }
    WorklistDone(g, roots, seen);
    held := false;
  }

  lemma ReachedComplete(g: Graph, roots: set<Id>, a: Id)
    requires (forall h :: h in roots ==> Complete(g, h)) && Reaches(g, roots, a)
    ensures Complete(g, a)
  {
    var h :| h in roots && Reach(g, h, a);
    CompleteAt(g, h, a);
  }

  /** confine without tags: sweep the scope's graph through materialised reads. None is the
      error a gap raises. */
  method Confine(s: Store, head: Id, key: Edge -> nat) returns (members: Option<set<Id>>)
    requires Acyclic(s)
    ensures members.Some? ==> forall a :: a in members.value <==> Reach(Material(s), head, a)
    ensures members.Some? <==> Complete(Material(s), head)
  {
    ghost var g, roots := Material(s), {head};
    var seen: set<Id> := {};
    var queue: seq<Id> := [head];
    WorklistStart(g, roots, queue);
    while queue != []
      invariant Worklist(g, roots, seen, queue)
      invariant seen <= g.Keys
      decreases Mentioned(g, roots) - seen, |queue|
    {
      var cur := queue[0];
      assert Waiting(seen, queue, cur);
      if cur in seen {
        WorklistSkip(g, roots, seen, queue);
        queue := queue[1..];
        continue;
      }
      var es := MaterializeOne(s, cur, key);
      if es.None? {
        assert Reach(g, head, cur) && cur !in g;
        return None;
      }
      InMentioned(g, roots, cur);
      var refs := References(es.value);
      assert forall b :: b in refs <==> Step(g, cur, b);
      WorklistExpand(g, roots, seen, queue, refs);
      seen, queue := seen + {cur}, queue[1..] + refs;
    }
    WorklistDone(g, roots, seen);
    OneRoot(g, head);
    members := Some(seen);
  }

  /** What a scope admits is what a delta walk from its head finds. */
  lemma ConfinementIsClosure(s: Store, head: Id)
    requires Acyclic(s) && DiffsDistinct(s)
    ensures Complete(Material(s), head) <==> Complete(Delta(s), head)
    ensures Complete(Delta(s), head) ==>
      forall a :: Reach(Material(s), head, a) <==> Reach(Delta(s), head, a)
  {
    if Complete(Delta(s), head) {
      DeltaMaterialAgree(s, head);
    }
    if Complete(Material(s), head) {
      forall a | Reach(Delta(s), head, a) ensures a in s {
        var n: nat :| ReachIn(Delta(s), head, a, n);
        forall x, y | x in Material(s) && Step(Delta(s), x, y) ensures Step(Material(s), x, y) {
          OwnStep(s, x, y);
        }
        CompleteShows(Delta(s), Material(s), head, a, n);
        assert Reach(Material(s), head, a);
      }
    }
  }
}
