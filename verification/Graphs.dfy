/** Finite directed graphs over claim ids, and the closure relation every other module is
    stated with: `Reach` is the reflexive-transitive step relation, `Worklist` the invariant
    that each of the repository's queue loops keeps while it sweeps a closure. */
module Graphs {

  // A content address. The order of two ids as byte strings is the order of the naturals.
  type Id = nat

  // The references of every claim a store holds, by the id of the referencing claim.
  type Graph = map<Id, set<Id>>

  function Elements(ids: seq<Id>): set<Id> {
    set a | a in ids
  }

  function Refs(g: Graph, a: Id): set<Id> {
    if a in g then g[a] else {}
  }

  predicate Step(g: Graph, a: Id, b: Id) {
    b in Refs(g, a)
  }

  /** Some walk of exactly n references leads from a to b. */
  ghost predicate ReachIn(g: Graph, a: Id, b: Id, n: nat)
    decreases n
  {
    if n == 0 then a == b else exists c :: Step(g, a, c) && ReachIn(g, c, b, n - 1)
  }

  ghost predicate Reach(g: Graph, a: Id, b: Id) {
    exists n: nat :: ReachIn(g, a, b, n)
  }

  ghost predicate Reaches(g: Graph, roots: set<Id>, b: Id) {
    exists a :: a in roots && Reach(g, a, b)
  }

  /** Every claim below a is held, so a walk from a meets no gap. */
  ghost predicate Complete(g: Graph, a: Id) {
    forall b :: Reach(g, a, b) ==> b in g
  }

  predicate Extends(g: Graph, g': Graph) {
    forall a :: a in g ==> a in g' && g'[a] == g[a]
  }

  ghost predicate Closed(g: Graph, s: set<Id>) {
    forall a, b :: a in s && Step(g, a, b) ==> b in s
  }

  // ---- Walks ----

  lemma ReachRefl(g: Graph, a: Id)
    ensures Reach(g, a, a)
  {
    assert ReachIn(g, a, a, 0);
  }

  lemma ReachStep(g: Graph, a: Id, b: Id)
    requires Step(g, a, b)
    ensures Reach(g, a, b)
  {
    assert ReachIn(g, b, b, 0);
    assert ReachIn(g, a, b, 1);
  }

  lemma {:induction false} ReachInTrans(g: Graph, a: Id, b: Id, c: Id, m: nat, n: nat)
    requires ReachIn(g, a, b, m) && ReachIn(g, b, c, n)
    ensures ReachIn(g, a, c, m + n)
    decreases m
  {
    if m > 0 {
      var d :| Step(g, a, d) && ReachIn(g, d, b, m - 1);
      ReachInTrans(g, d, b, c, m - 1, n);
    }
  }

  lemma ReachTrans(g: Graph, a: Id, b: Id, c: Id)
    requires Reach(g, a, b) && Reach(g, b, c)
    ensures Reach(g, a, c)
  {
    var m: nat :| ReachIn(g, a, b, m);
    var n: nat :| ReachIn(g, b, c, n);
    ReachInTrans(g, a, b, c, m, n);
  }

  /** A walk of more than one claim ends with a step. */
  lemma {:induction false} LastStep(g: Graph, a: Id, b: Id, n: nat) returns (c: Id)
    requires n > 0 && ReachIn(g, a, b, n)
    ensures ReachIn(g, a, c, n - 1) && Step(g, c, b)
    decreases n
  {
    var d :| Step(g, a, d) && ReachIn(g, d, b, n - 1);
    if n == 1 {
      c := a;
    } else {
      c := LastStep(g, d, b, n - 1);
      assert ReachIn(g, a, c, n - 1);
    }
  }

  lemma ReachCases(g: Graph, a: Id, b: Id)
    requires Reach(g, a, b)
    ensures a == b || exists c :: Step(g, a, c) && Reach(g, c, b)
  {
    var n: nat :| ReachIn(g, a, b, n);
    if n > 0 {
      var c :| Step(g, a, c) && ReachIn(g, c, b, n - 1);
      assert Reach(g, c, b);
    }
  }

  lemma ReachesTrans(g: Graph, roots: set<Id>, b: Id, c: Id)
    requires Reaches(g, roots, b) && Reach(g, b, c)
    ensures Reaches(g, roots, c)
  {
    var a :| a in roots && Reach(g, a, b);
    ReachTrans(g, a, b, c);
  }

  /** Replacing each step by a walk reaches no further. */
  lemma {:induction false} Simulated(g: Graph, m: Graph, a: Id, b: Id, n: nat)
    requires forall x, y :: Step(m, x, y) ==> Reach(g, x, y)
    requires ReachIn(m, a, b, n)
    ensures Reach(g, a, b)
    decreases n
  {
    ReachRefl(g, a);
    if n > 0 {
      var c :| Step(m, a, c) && ReachIn(m, c, b, n - 1);
      Simulated(g, m, c, b, n - 1);
      ReachTrans(g, a, c, b);
    }
  }

  /** A reading m that shows every step of g, and meets no gap below a, walks all of g there. */
  lemma {:induction false} CompleteShows(g: Graph, m: Graph, a: Id, b: Id, n: nat)
    requires forall x, y :: x in m && Step(g, x, y) ==> Step(m, x, y)
    requires Complete(m, a) && ReachIn(g, a, b, n)
    ensures ReachIn(m, a, b, n)
    decreases n
  {
    ReachRefl(m, a);
    if n > 0 {
      var c :| Step(g, a, c) && ReachIn(g, c, b, n - 1);
      CompleteBelow(m, a, c);
      CompleteShows(g, m, c, b, n - 1);
    }
  }

  /** A reading m that shows every step g takes inside a complete closure walks all of it. */
  lemma {:induction false} CompleteWalk(g: Graph, m: Graph, a: Id, b: Id, n: nat)
    requires forall x, y :: Complete(g, x) && Step(g, x, y) ==> Step(m, x, y)
    requires Complete(g, a) && ReachIn(g, a, b, n)
    ensures ReachIn(m, a, b, n)
    decreases n
  {
    if n > 0 {
      var c :| Step(g, a, c) && ReachIn(g, c, b, n - 1);
      CompleteBelow(g, a, c);
      CompleteWalk(g, m, c, b, n - 1);
    }
  }

  // ---- Closed sets ----

  lemma {:induction false} StayInside(g: Graph, s: set<Id>, a: Id, b: Id, n: nat)
    requires Closed(g, s) && a in s && ReachIn(g, a, b, n)
    ensures b in s
    decreases n
  {
    if n > 0 {
      var c :| Step(g, a, c) && ReachIn(g, c, b, n - 1);
      StayInside(g, s, c, b, n - 1);
    }
  }

  lemma ClosedHolds(g: Graph, s: set<Id>, a: Id, b: Id)
    requires Closed(g, s) && a in s && Reach(g, a, b)
    ensures b in s
  {
    var n: nat :| ReachIn(g, a, b, n);
    StayInside(g, s, a, b, n);
  }

  lemma OneRoot(g: Graph, head: Id)
    ensures forall a :: Reaches(g, {head}, a) <==> Reach(g, head, a)
  {
  }

  // ---- Growing stores ----

  lemma {:induction false} ExtendWalk(g: Graph, g': Graph, a: Id, b: Id, n: nat)
    requires Extends(g, g') && ReachIn(g, a, b, n)
    ensures ReachIn(g', a, b, n)
    decreases n
  {
    if n > 0 {
      var c :| Step(g, a, c) && ReachIn(g, c, b, n - 1);
      ExtendWalk(g, g', c, b, n - 1);
      assert Step(g', a, c);
    }
  }

  lemma {:induction false} RestrictWalk(g: Graph, g': Graph, a: Id, b: Id, n: nat)
    requires Extends(g, g') && Complete(g, a) && ReachIn(g', a, b, n)
    ensures ReachIn(g, a, b, n)
    decreases n
  {
    ReachRefl(g, a);
    if n > 0 {
      var c :| Step(g', a, c) && ReachIn(g', c, b, n - 1);
      assert Step(g, a, c);
      CompleteBelow(g, a, c);
      RestrictWalk(g, g', c, b, n - 1);
    }
  }

  lemma CompleteAt(g: Graph, a: Id, b: Id)
    requires Complete(g, a) && Reach(g, a, b)
    ensures Complete(g, b)
  {
    forall c | Reach(g, b, c) ensures c in g {
      ReachTrans(g, a, b, c);
    }
  }

  lemma CompleteBelow(g: Graph, a: Id, c: Id)
    requires Complete(g, a) && Step(g, a, c)
    ensures Complete(g, c)
  {
    ReachStep(g, a, c);
    CompleteAt(g, a, c);
  }

  /** Adding claims to a store changes no complete closure. */
  lemma ExtendClosure(g: Graph, g': Graph, a: Id)
    requires Extends(g, g') && Complete(g, a)
    ensures forall b :: Reach(g', a, b) <==> Reach(g, a, b)
    ensures Complete(g', a)
  {
    forall b ensures Reach(g', a, b) <==> Reach(g, a, b) {
      if Reach(g', a, b) {
        var n: nat :| ReachIn(g', a, b, n);
        RestrictWalk(g, g', a, b, n);
      }
      if Reach(g, a, b) {
        var n: nat :| ReachIn(g, a, b, n);
        ExtendWalk(g, g', a, b, n);
      }
    }
  }

  /** The closure of a claim is itself and the closures of what it references. */
  lemma ClosureOfNode(g: Graph, a: Id)
    ensures forall b :: Reach(g, a, b) <==> b == a || exists c :: Step(g, a, c) && Reach(g, c, b)
  {
    forall b ensures Reach(g, a, b) <==> b == a || exists c :: Step(g, a, c) && Reach(g, c, b) {
      if Reach(g, a, b) {
        ReachCases(g, a, b);
      }
      ReachRefl(g, a);
      if c :| Step(g, a, c) && Reach(g, c, b) {
        ReachStep(g, a, c);
        ReachTrans(g, a, c, b);
      }
    }
  }

  // ---- Queue loops ----

  ghost predicate Waiting(seen: set<Id>, queue: seq<Id>, a: Id) {
    a in seen || a in queue
  }

  /** What a closure sweep keeps: expanded claims are in seen, their references in seen or
      still queued, and nothing is listed that the roots do not reach. */
  ghost predicate Worklist(g: Graph, roots: set<Id>, seen: set<Id>, queue: seq<Id>) {
    && (forall a :: a in roots ==> Waiting(seen, queue, a))
    && (forall a, b :: a in seen && Step(g, a, b) ==> Waiting(seen, queue, b))
    && (forall a :: Waiting(seen, queue, a) ==> Reaches(g, roots, a))
  }

  lemma WorklistStart(g: Graph, roots: set<Id>, queue: seq<Id>)
    requires forall a :: a in roots <==> a in queue
    ensures Worklist(g, roots, {}, queue)
  {
    forall a | a in queue ensures Reaches(g, roots, a) {
      ReachRefl(g, a);
    }
  }

  lemma WorklistSkip(g: Graph, roots: set<Id>, seen: set<Id>, queue: seq<Id>)
    requires Worklist(g, roots, seen, queue) && queue != [] && queue[0] in seen
    ensures Worklist(g, roots, seen, queue[1..])
  {
    forall a | Waiting(seen, queue, a) ensures Waiting(seen, queue[1..], a) {
      assert queue == [queue[0]] + queue[1..];
    }
    forall a | Waiting(seen, queue[1..], a) ensures Waiting(seen, queue, a) {}
  }

  lemma WorklistExpand(g: Graph, roots: set<Id>, seen: set<Id>, queue: seq<Id>, refs: seq<Id>)
    requires Worklist(g, roots, seen, queue) && queue != []
    requires forall b :: b in refs <==> Step(g, queue[0], b)
    ensures Worklist(g, roots, seen + {queue[0]}, queue[1..] + refs)
  {
    var x := queue[0];
    var seen', queue' := seen + {x}, queue[1..] + refs;
    assert Waiting(seen, queue, x);
    forall a | Waiting(seen, queue, a) ensures Waiting(seen', queue', a) {
      assert queue == [x] + queue[1..];
    }
    forall a, b | a in seen' && Step(g, a, b) ensures Waiting(seen', queue', b) {
      if a == x {
        assert b in refs;
      } else {
        assert Waiting(seen, queue, b);
      }
    }
    forall a | Waiting(seen', queue', a) ensures Reaches(g, roots, a) {
      if a in refs {
        ReachStep(g, x, a);
        ReachesTrans(g, roots, x, a);
      } else {
        assert Waiting(seen, queue, a);
      }
    }
  }

  /** What is waited for matters, not how the queue lists it. */
  lemma WorklistSame(g: Graph, roots: set<Id>, seen: set<Id>, q: seq<Id>, q': seq<Id>)
    requires Worklist(g, roots, seen, q) && forall a :: Waiting(seen, q, a) <==> Waiting(seen, q', a)
    ensures Worklist(g, roots, seen, q')
  {
  }

  /** A drained queue leaves exactly the closure of the roots. */
  lemma WorklistDone(g: Graph, roots: set<Id>, seen: set<Id>)
    requires Worklist(g, roots, seen, [])
    ensures forall a :: a in seen <==> Reaches(g, roots, a)
  {
    forall a, b | a in seen && Step(g, a, b) ensures b in seen {
      assert Waiting(seen, [], b);
    }
    assert Closed(g, seen);
    forall a ensures a in seen <==> Reaches(g, roots, a) {
      if a in seen {
        assert Waiting(seen, [], a);
      }
      if Reaches(g, roots, a) {
        var r :| r in roots && Reach(g, r, a);
        assert Waiting(seen, [], r);
        ClosedHolds(g, seen, r, a);
      }
    }
  }

  /** Every id a walk over g can name: the held claims, what they reference, and the roots. */
  function Mentioned(g: Graph, roots: set<Id>): (u: set<Id>)
    ensures roots <= u
    ensures forall a, b :: Step(g, a, b) ==> b in u
    ensures g.Keys <= u
  {
    roots + g.Keys + set a, b | a in g.Keys && b in g[a] :: b
  }

  lemma InMentioned(g: Graph, roots: set<Id>, a: Id)
    requires Reaches(g, roots, a)
    ensures a in Mentioned(g, roots)
  {
    var r :| r in roots && Reach(g, r, a);
    var n: nat :| ReachIn(g, r, a, n);
    if n > 0 {
      var c := LastStep(g, r, a, n);
    }
  }
}
