/** Copying claims between stores (universe_default.go): a copy with closure is a merge. It
    walks what its reads materialise and stops at claims the destination holds, trusting each
    to have come with everything below it. */
module Copying {
  import opened Graphs
  import opened Claims
  import opened Options
  import opened Diffs
  import opened Verifier

  /** Both stores hold the same claim under an id they share. */
  predicate Agree(s: Store, t: Store) {
    forall a :: a in s && a in t ==> s[a] == t[a]
  }

  /** Every reference of a held claim is held: the store may be merged into an archive. */
  ghost predicate RefClosed(s: Store) {
    Closed(Delta(s), s.Keys)
  }

  /** What a copy brings over: claims the walk from the roots meets before a held one. */
  ghost predicate Brought(dst: Store, src: Store, roots: set<Id>, closure: bool, a: Id)
    requires Acyclic(src)
  {
    a !in dst && if closure then Reaches(Pruned(Material(src), dst.Keys), roots, a) else a in roots
  }

  ghost predicate CopyOf(dst: Store, dst': Store, src: Store, roots: set<Id>, closure: bool)
    requires Acyclic(src)
  {
    && (forall a :: a in dst' <==> a in dst || Brought(dst, src, roots, closure, a))
    && (forall a :: a in dst ==> dst'[a] == dst[a])
    && (forall a :: a in dst' && a !in dst ==> a in src && dst'[a] == src[a])
  }

  /** The step relation of the walk: none without closure, the pruned one with it. */
  ghost function CopyGraph(dst: Store, src: Store, closure: bool): Graph
    requires Acyclic(src)
  {
    if closure then Pruned(Material(src), dst.Keys) else map[]
  }

  lemma CopySteps(dst: Store, src: Store, closure: bool, cur: Id)
    requires Acyclic(src)
    ensures cur in dst || !closure ==> Refs(CopyGraph(dst, src, closure), cur) == {}
    ensures cur !in dst && closure ==> Refs(CopyGraph(dst, src, closure), cur) == Refs(Material(src), cur)
  {
  }

  lemma NoSteps(roots: set<Id>, a: Id)
    ensures Reaches(map[], roots, a) <==> a in roots
  {
    ReachRefl(map[], a);
    assert Closed(map[], roots);
    if Reaches(map[], roots, a) {
      var r :| r in roots && Reach(map[], r, a);
      ClosedHolds(map[], roots, r, a);
    }
  }

  ghost predicate Copied(dst: Store, dst': Store, src: Store, seen: set<Id>) {
    && (forall a :: a in dst' <==> a in dst || a in seen)
    && (forall a :: a in dst ==> dst'[a] == dst[a])
    && (forall a :: a in dst' && a !in dst ==> a in src && dst'[a] == src[a])
  }

  lemma CopyOne(dst: Store, dst': Store, src: Store, seen: set<Id>, cur: Id)
    requires Copied(dst, dst', src, seen) && cur !in dst && cur in src
    ensures Copied(dst, dst'[cur := src[cur]], src, seen + {cur})
  {
  }

  lemma CountOne(dst: Store, dst': Store, cur: Id, c: Claim)
    requires cur !in dst && cur !in dst'
    ensures |dst'[cur := c].Keys - dst.Keys| == |dst'.Keys - dst.Keys| + 1
  {
    assert dst'[cur := c].Keys - dst.Keys == (dst'.Keys - dst.Keys) + {cur};
  }

  /** A claim the destination lacks: GetClaim from the source, PutClaim, and what to queue. */
  method CopyOneClaim(dst: Store, dst': Store, src: Store, closure: bool, key: Edge -> nat, cur: Id,
      ghost seen: set<Id>)
    returns (put: Option<Store>, refs: seq<Id>)
    requires Acyclic(src) && Copied(dst, dst', src, seen) && cur !in seen && cur !in dst
    ensures put.Some? ==> Copied(dst, put.value, src, seen + {cur})
    ensures put.Some? ==> |put.value.Keys - dst.Keys| == |dst'.Keys - dst.Keys| + 1
    ensures put.Some? ==> forall b :: b in refs <==> Step(CopyGraph(dst, src, closure), cur, b)
  {
    refs := [];
    var es := MaterializeOne(src, cur, key);
    var fails: bool := *;
    if es.None? || fails {
      return None, [];
    }
    CopySteps(dst, src, closure, cur);
    CopyOne(dst, dst', src, seen, cur);
    CountOne(dst, dst', cur, src[cur]);
    put := Some(dst'[cur := src[cur]]);
    if closure {
      refs := References(es.value);
    }
  }

  lemma HeldPasses(dst: Store, dst': Store, src: Store, closure: bool, cur: Id, seen: set<Id>)
    requires Acyclic(src) && Copied(dst, dst', src, seen) && cur in dst
    ensures Copied(dst, dst', src, seen + {cur}) && forall b :: !Step(CopyGraph(dst, src, closure), cur, b)
  {
    CopySteps(dst, src, closure, cur);
  }

  lemma CopyDone(dst: Store, dst': Store, src: Store, roots: set<Id>, closure: bool, seen: set<Id>)
    requires Acyclic(src) && Copied(dst, dst', src, seen)
    requires forall a :: a in seen <==> Reaches(CopyGraph(dst, src, closure), roots, a)
    ensures CopyOf(dst, dst', src, roots, closure)
  {
    forall a ensures a !in dst ==> (a in seen <==> Brought(dst, src, roots, closure, a)) {
      NoSteps(roots, a);
    }
  }

  /** DefaultCopyClaims. It ends, and each missing claim is copied once. */
  method CopyClaims(dst: Store, src: Store, ids: seq<Id>, closure: bool, key: Edge -> nat)
    returns (ok: bool, dst': Store, copied: nat)
    requires Acyclic(src) && Agree(dst, src)
    ensures ok ==> CopyOf(dst, dst', src, Elements(ids), closure)
    ensures ok ==> copied == |dst'.Keys - dst.Keys|
    ensures forall a :: a in dst ==> a in dst' && dst'[a] == dst[a]
  {
    ghost var g, roots := CopyGraph(dst, src, closure), Elements(ids);
    ok, dst', copied := true, dst, 0;
    var seen: set<Id> := {};
    var queue := ids;
    WorklistStart(g, roots, queue);
    assert dst'.Keys - dst.Keys == {};
    while queue != []
      invariant Worklist(g, roots, seen, queue) && Copied(dst, dst', src, seen)
      invariant copied == |dst'.Keys - dst.Keys|
      decreases Mentioned(g, roots) - seen, |queue|
    {
      var cur := queue[0];
      assert Waiting(seen, queue, cur);
      if cur in seen {
        WorklistSkip(g, roots, seen, queue);
        queue := queue[1..];
        continue;
      }
      InMentioned(g, roots, cur);
      var refs := [];
      if cur in dst {
        HeldPasses(dst, dst', src, closure, cur, seen);
      } else {
        var put;
        put, refs := CopyOneClaim(dst, dst', src, closure, key, cur, seen);
        if put.None? {
          ok := false;
          return;
        }
        dst', copied := put.value, copied + 1;
      }
      WorklistExpand(g, roots, seen, queue, refs);
      seen, queue := seen + {cur}, queue[1..] + refs;
    }
    WorklistDone(g, roots, seen);
    CopyDone(dst, dst', src, roots, closure, seen);
  }

  /** A completed copy is closed exactly if each reference the destination lacks is met by the
      walk from the roots before any claim the destination holds. */
  lemma CopyClosedExactly(dst: Store, dst': Store, src: Store, roots: set<Id>)
    requires Acyclic(src) && DiffsDistinct(src) && CopyOf(dst, dst', src, roots, true)
    requires forall r :: r in roots ==> Complete(Delta(src), r)
    ensures RefClosed(dst') <==>
      forall a, b :: a in dst && Step(Delta(dst), a, b) ==> b in dst || Brought(dst, src, roots, true, b)
  {
    forall a, b | a in dst' && a !in dst && Step(Delta(dst'), a, b) ensures b in dst' {
      CopiedBelow(dst, dst', src, roots, a, b);
    }
    forall a, b | a in dst ensures Step(Delta(dst'), a, b) <==> Step(Delta(dst), a, b) {}
  }

  lemma CopiedBelow(dst: Store, dst': Store, src: Store, roots: set<Id>, a: Id, b: Id)
    requires Acyclic(src) && DiffsDistinct(src) && CopyOf(dst, dst', src, roots, true)
    requires forall r :: r in roots ==> Complete(Delta(src), r)
    requires a in dst' && a !in dst && Step(Delta(dst'), a, b)
    ensures b in dst'
  {
    var g := Pruned(Material(src), dst.Keys);
    BroughtComplete(dst, src, roots, a);
    CompleteMaterializes(src, a);
    OwnStep(src, a, b);
    ReachStep(g, a, b);
    ReachesTrans(g, roots, a, b);
  }

  lemma PrunedMaterial(src: Store, known: set<Id>, a: Id, b: Id)
    requires Acyclic(src) && Reach(Pruned(Material(src), known), a, b)
    ensures Reach(Delta(src), a, b)
  {
    var g := Pruned(Material(src), known);
    forall x, y | Step(g, x, y) ensures Reach(Delta(src), x, y) {
      MaterialStep(src, x, y);
    }
    var n: nat :| ReachIn(g, a, b, n);
    Simulated(Delta(src), g, a, b, n);
  }

  lemma BroughtComplete(dst: Store, src: Store, roots: set<Id>, a: Id)
    requires Acyclic(src) && Brought(dst, src, roots, true, a)
    requires forall r :: r in roots ==> Complete(Delta(src), r)
    ensures Complete(Delta(src), a) && Reaches(Delta(src), roots, a)
  {
    var r :| r in roots && Reach(Pruned(Material(src), dst.Keys), r, a);
    PrunedMaterial(src, dst.Keys, r, a);
    CompleteAt(Delta(src), r, a);
  }

  lemma {:induction false} ClosedAcross(dst: Store, src: Store, a: Id, b: Id, n: nat)
    requires RefClosed(dst) && Agree(dst, src) && a in dst && Complete(Delta(src), a) && ReachIn(Delta(src), a, b, n)
    ensures b in dst
    decreases n
  {
    ReachRefl(Delta(src), a);
    if n > 0 {
      var c :| Step(Delta(src), a, c) && ReachIn(Delta(src), c, b, n - 1);
      assert Step(Delta(dst), a, c);
      CompleteBelow(Delta(src), a, c);
      ClosedAcross(dst, src, c, b, n - 1);
    }
  }

  /** Copy is merge: into a closed destination, it brings exactly the roots' closure, and leaves
      the destination closed. */
  lemma CopyIsMerge(dst: Store, dst': Store, src: Store, roots: set<Id>)
    requires Acyclic(src) && DiffsDistinct(src) && Agree(dst, src) && RefClosed(dst)
    requires CopyOf(dst, dst', src, roots, true) && forall r :: r in roots ==> Complete(Delta(src), r)
    ensures RefClosed(dst')
    ensures forall a :: a in dst' <==> a in dst || Reaches(Delta(src), roots, a)
  {
    CopyClosedExactly(dst, dst', src, roots);
    forall a ensures a in dst' <==> a in dst || Reaches(Delta(src), roots, a) {
      if a in dst' && a !in dst {
        BroughtComplete(dst, src, roots, a);
      }
      if Reaches(Delta(src), roots, a) {
        var r :| r in roots && Reach(Delta(src), r, a);
        ReachedIsBrought(dst, src, roots, r, a);
      }
    }
  }

  lemma ReachedIsBrought(dst: Store, src: Store, roots: set<Id>, r: Id, a: Id)
    requires Acyclic(src) && DiffsDistinct(src) && Agree(dst, src) && RefClosed(dst)
    requires r in roots && Complete(Delta(src), r) && Reach(Delta(src), r, a)
    ensures a in dst || Brought(dst, src, roots, true, a)
  {
    DeltaMaterialAgree(src, r);
    var n: nat :| ReachIn(Material(src), r, a, n);
    PrunedOrMet(Material(src), dst.Keys, r, a, n);
    if t :| t in dst.Keys && Reach(Material(src), r, t) && Reach(Material(src), t, a) {
      MaterialReach(src, r, t);
      MaterialReach(src, t, a);
      CompleteAt(Delta(src), r, t);
      var m: nat :| ReachIn(Delta(src), t, a, m);
      ClosedAcross(dst, src, t, a, m);
    }
  }

  /** A walk either runs past no held claim, or meets one on its way. */
  lemma {:induction false} PrunedOrMet(m: Graph, known: set<Id>, a: Id, b: Id, n: nat)
    requires ReachIn(m, a, b, n)
    ensures Reach(Pruned(m, known), a, b) || exists t :: t in known && Reach(m, a, t) && Reach(m, t, b)
    decreases n
  {
    ReachRefl(m, a);
    ReachRefl(Pruned(m, known), a);
    if a in known {
      assert Reach(m, a, b);
    } else if n > 0 {
      var c :| Step(m, a, c) && ReachIn(m, c, b, n - 1);
      PrunedOrMet(m, known, c, b, n - 1);
      ReachStep(m, a, c);
      if Reach(Pruned(m, known), c, b) {
        ReachStep(Pruned(m, known), a, c);
        ReachTrans(Pruned(m, known), a, c, b);
      } else {
        var t :| t in known && Reach(m, c, t) && Reach(m, t, b);
        ReachTrans(m, a, c, t);
      }
    }
  }

  lemma MaterialReach(src: Store, a: Id, b: Id)
    requires Acyclic(src) && Reach(Material(src), a, b)
    ensures Reach(Delta(src), a, b)
  {
    forall x, y | Step(Material(src), x, y) ensures Reach(Delta(src), x, y) {
      MaterialStep(src, x, y);
    }
    var n: nat :| ReachIn(Material(src), a, b, n);
    Simulated(Delta(src), Material(src), a, b, n);
  }

  /** A copy cut short leaves a claim without what it references, and copying again passes it by
      as fully copied: the gap stays. */
  lemma InterruptedCopyStays(dst: Store, dst': Store, src: Store, a: Id, b: Id)
    requires Acyclic(src) && CopyOf(dst, dst', src, {a}, true)
    requires a in dst && a in src && dst[a] == src[a] && b !in dst && Step(Delta(src), a, b)
    ensures dst' == dst && !RefClosed(dst')
  {
    var g := Pruned(Material(src), dst.Keys);
    assert Closed(g, {a});
    forall x | Reaches(g, {a}, x) ensures x == a {
      ClosedHolds(g, {a}, a, x);
    }
    assert Step(Delta(dst'), a, b);
  }
}
