/** Claims the Sequencer mints (concurrent.go, graph.go): dated by its own monotone clock and
    one level above what they reference, they keep the rules the verifier checks, so a commit
    extends the sound closure that later walks prune at. */
module Minting {
  import opened Graphs
  import opened Claims
  import opened Options
  import opened Verifier
  import Sequencers

  /** Everything below r is held and keeps the rules, and nothing is dated past now. */
  ghost predicate Settled(s: Store, extra: Claim -> bool, now: int, r: Id) {
    r in s && Sound(s, extra, {r}) && s[r].createdAt <= now
  }

  ghost predicate AllSettled(s: Store, extra: Claim -> bool, now: int, rs: set<Id>) {
    forall r :: r in rs ==> Settled(s, extra, now, r)
  }

  lemma SoundComplete(s: Store, extra: Claim -> bool, r: Id)
    requires Sound(s, extra, {r})
    ensures Complete(Delta(s), r)
  {
    forall b | Reach(Delta(s), r, b) ensures b in s {
      assert Reaches(Delta(s), {r}, b);
      assert Lawful(s, extra, b);
    }
  }

  lemma SettledBelow(s: Store, extra: Claim -> bool, now: int, r: Id, b: Id)
    requires Settled(s, extra, now, r) && Reach(Delta(s), r, b)
    ensures Settled(s, extra, now, b)
  {
    SoundBelow(s, extra, r, b);
    var n: nat :| ReachIn(Delta(s), r, b, n);
    DatesNeverDecrease(s, extra, r, b, n);
  }

  /** Sound roots stay sound: no later claim can enter a complete closure. */
  lemma SettledGrows(s: Store, s': Store, extra: Claim -> bool, now: int, now': int, r: Id)
    requires Grows(s, s') && now <= now' && Settled(s, extra, now, r)
    ensures Settled(s', extra, now', r)
  {
    SoundComplete(s, extra, r);
    GrowsDelta(s, s');
    ExtendClosure(Delta(s), Delta(s'), r);
    forall a | Reaches(Delta(s'), {r}, a) ensures Lawful(s', extra, a) {
      assert Reaches(Delta(s), {r}, a);
      assert Lawful(s, extra, a);
      CompleteAt(Delta(s), r, a);
      LawfulGrows(s, s', extra, a);
    }
  }

  lemma LawfulGrows(s: Store, s': Store, extra: Claim -> bool, a: Id)
    requires Grows(s, s') && Lawful(s, extra, a) && Complete(Delta(s), a)
    ensures Lawful(s', extra, a)
  {
    forall e | e in s[a].edges ensures e.reference in s {
      assert Step(Delta(s), a, e.reference);
      ReachStep(Delta(s), a, e.reference);
    }
  }

  lemma AllSettledGrows(s: Store, s': Store, extra: Claim -> bool, now: int, now': int, rs: set<Id>)
    requires Grows(s, s') && now <= now' && AllSettled(s, extra, now, rs)
    ensures AllSettled(s', extra, now', rs)
  {
    forall r | r in rs ensures Settled(s', extra, now', r) {
      SettledGrows(s, s', extra, now, now', r);
    }
  }

  /** WithAutoHeight: one above the highest reference. */
  ghost predicate Above(s: Store, refs: set<Id>, h: nat) {
    && refs != {} && refs <= s.Keys
    && (forall r :: r in refs ==> s[r].height < h)
    && exists r :: r in refs && s[r].height + 1 == h
  }

  /** What the Sequencer's mint computes is that height. */
  lemma AutoHeightIsAbove(s: Store, refs: set<Id>)
    requires refs != {} && refs <= s.Keys
    ensures Above(s, refs, Sequencers.MaxHeight(s, refs) + 1)
  {
    var r :| r in refs;
    assert s[r].height <= Sequencers.MaxHeight(s, refs);
  }

  /** The Sequencer minted r over refs, at a tick of its clock. */
  ghost predicate MintedOver(s: Store, extra: Claim -> bool, now: int, refs: set<Id>, r: Id) {
    && r in s && Targets(EdgeSet(s[r].edges)) == refs && Above(s, refs, s[r].height)
    && s[r].createdAt == now && extra(s[r])
  }

  /** A claim minted over sound roots is a sound root. */
  lemma MintSettled(s: Store, extra: Claim -> bool, now: int, refs: set<Id>, r: Id)
    requires MintedOver(s, extra, now, refs, r) && AllSettled(s, extra, now, refs)
    ensures Settled(s, extra, now, r)
  {
    forall e | e in s[r].edges ensures e.reference in refs {
      assert e in EdgeSet(s[r].edges);
    }
    MintLawful(s, extra, now, refs, r);
    ClosureOfNode(Delta(s), r);
    forall a | Reaches(Delta(s), {r}, a) ensures Lawful(s, extra, a) {
      if a != r {
        var c :| Step(Delta(s), r, c) && Reach(Delta(s), c, a);
        assert Sound(s, extra, {c});
        assert Reaches(Delta(s), {c}, a);
      }
    }
  }

  lemma MintLawful(s: Store, extra: Claim -> bool, now: int, refs: set<Id>, r: Id)
    requires MintedOver(s, extra, now, refs, r) && AllSettled(s, extra, now, refs)
    ensures Lawful(s, extra, r)
  {
    forall e | e in s[r].edges ensures e.reference in refs {
      assert e in EdgeSet(s[r].edges);
    }
    var top :| top in refs && s[top].height + 1 == s[r].height;
    var e :| e in EdgeSet(s[r].edges) && e.reference == top;
    assert s[r].edges != [];
  }

  /** Step 4: verified against whatever was committed by then, a contribution's root is sound. */
  lemma VerifiedSettled(s: Store, extra: Claim -> bool, now: int, t: int, trusted: set<Id>, r: Id)
    requires AllSettled(s, extra, now, trusted)
    requires Verified(s, extra, t, trusted, r)
    ensures Settled(s, extra, t, r)
  {
    ReachRefl(Delta(s), r);
    forall a | Reaches(Delta(s), trusted, a) ensures Lawful(s, extra, a) {
      var t :| t in trusted && Reach(Delta(s), t, a);
      assert Reaches(Delta(s), {t}, a);
    }
    PrunedWalkSound(s, extra, {r}, trusted);
  }

  /** What CompleteAndVerify has established of a root: staged with everything below it, dated
      at or before its base time t, and a walk pruned at committed claims found no failure. */
  ghost predicate Verified(s: Store, extra: Claim -> bool, t: int, trusted: set<Id>, r: Id) {
    && Complete(Delta(s), r)
    && (r in s ==> s[r].createdAt <= t)
    && forall a :: Judgeable(s, trusted, {r}, a) && a in s ==> Lawful(s, extra, a)
  }

  lemma {:induction false} PrunedShrinks(g: Graph, g': Graph, trusted: set<Id>, trusted': set<Id>, a: Id, b: Id, n: nat)
    requires Extends(g, g') && trusted <= trusted' && Complete(g, a) && ReachIn(Pruned(g', trusted'), a, b, n)
    ensures ReachIn(Pruned(g, trusted), a, b, n)
    decreases n
  {
    ReachRefl(g, a);
    if n > 0 {
      var c :| Step(Pruned(g', trusted'), a, c) && ReachIn(Pruned(g', trusted'), c, b, n - 1);
      assert Step(g, a, c);
      CompleteBelow(g, a, c);
      PrunedShrinks(g, g', trusted, trusted', c, b, n - 1);
      assert Step(Pruned(g, trusted), a, c);
    }
  }

  /** What passed step 4 stays verified while it waits: the store grows and more is committed. */
  lemma VerifiedStays(
    s: Store, s': Store, extra: Claim -> bool, t: int, trusted: set<Id>, trusted': set<Id>, r: Id)
    requires Grows(s, s') && trusted <= trusted' && Verified(s, extra, t, trusted, r)
    ensures Verified(s', extra, t, trusted', r)
  {
    GrowsDelta(s, s');
    ReachRefl(Delta(s), r);
    ExtendClosure(Delta(s), Delta(s'), r);
    forall a | Judgeable(s', trusted', {r}, a) && a in s' ensures Lawful(s', extra, a) {
      var n: nat :| ReachIn(Pruned(Delta(s'), trusted'), r, a, n);
      PrunedShrinks(Delta(s), Delta(s'), trusted, trusted', r, a, n);
      assert Reaches(Pruned(Delta(s), trusted), {r}, a);
      PrunedReach(Delta(s), trusted, r, a, n);
      CompleteAt(Delta(s), r, a);
      LawfulGrows(s, s', extra, a);
    }
  }

  lemma PrunedReach(g: Graph, trusted: set<Id>, a: Id, b: Id, n: nat)
    requires ReachIn(Pruned(g, trusted), a, b, n)
    ensures Reach(g, a, b)
  {
    ExtendWalk(Pruned(g, trusted), g, a, b, n);
  }
}
