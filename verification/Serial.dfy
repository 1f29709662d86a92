/** The one-at-a-time reference (dev.go): a serial Sequencer folds and restates one
    contribution at a time. A group commit reaches the same claims as merging its batch
    serially in any order. */
module Serial {
  import opened Graphs
  import opened Claims
  import opened Options
  import opened Diffs
  import opened Folds
  import opened Sequencers
  import Bookmarks
  import Membership

  // ---- Any order, one at a time or as a group ----

  /** hs are the branch heads before, between and after merging ps one by one. */
  ghost predicate OneByOne(s: Store, self: Id, hs: seq<map<string, Id>>, ps: seq<Pending>) {
    && |hs| == |ps| + 1
    && forall i :: 0 <= i < |ps| ==> MergesOne(s, self, hs[i], ps[i], hs[i + 1])
  }

  /** Every touched branch was folded and no other moved. This lasts as the store grows. */
  ghost predicate Commits(s: Store, self: Id, before: map<string, Id>, batch: seq<Pending>, after: map<string, Id>) {
    FoldedAll(s, self, before, ByBranch(batch), after) && Leaves(before, after, Touched(batch))
  }

  lemma CommitsLast(s: Store, s': Store, self: Id, before: map<string, Id>, batch: seq<Pending>, after: map<string, Id>)
    requires Grows(s, s') && Commits(s, self, before, batch, after)
    ensures Commits(s', self, before, batch, after)
  {
    FoldedAllGrows(s, s', self, before, ByBranch(batch), after);
  }

  ghost predicate MergesOne(s: Store, self: Id, before: map<string, Id>, p: Pending, after: map<string, Id>) {
    Commits(s, self, before, [p], after)
  }

  /** What branch b should hold once ps are merged onto `before`. */
  ghost predicate Due(s: Store, before: map<string, Id>, ps: seq<Pending>, b: string, a: Id) {
    Covered(Delta(s), Lookup(before, b), Membership.Named(Contributed(ps, b)), a)
  }

  /** The Sequencer's own additions: heads it folded branches into, and its contributor claim
      with what that references. */
  ghost predicate Own(s: Store, self: Id, minted: set<Id>, a: Id) {
    a in minted || Reach(Delta(s), self, a)
  }

  function HeadClaims(s: Store, ids: set<Id>): set<Id> {
    set h | h in ids && h in s && s[h].kind == NODE_HEAD
  }

  function AllHeads(hs: seq<map<string, Id>>): set<Id> {
    set m, b | m in hs && b in m :: m[b]
  }

  /** Head h of branch b holds what is due, and beyond it only the Sequencer's own claims. */
  ghost predicate Exact(
    s: Store, self: Id, minted: set<Id>, before: map<string, Id>, ps: seq<Pending>, b: string, h: Option<Id>)
  {
    && (forall a :: Due(s, before, ps, b, a) ==> h.Some? && Reach(Delta(s), h.value, a))
    && (h.Some? ==> forall a :: Reach(Delta(s), h.value, a) ==> Due(s, before, ps, b, a) || Own(s, self, minted, a))
  }

  lemma NamedOnce(ps: seq<Pending>, i: nat, b: string)
    requires i < |ps|
    ensures Membership.Named(Contributed(ps[..i + 1], b)) ==
      Membership.Named(Contributed(ps[..i], b)) + Membership.Named(Contributed([ps[i]], b))
    ensures b !in Touched([ps[i]]) ==> Contributed([ps[i]], b) == []
  {
    NextPending(ps, i);
    assert [ps[i]][..0] == [] && Contributed([ps[i]], b) == if b in ps[i].heads then ps[i].heads[b] else [];
    assert ps[i] in [ps[i]];
  }

  lemma OneMoreExact(
    s: Store, self: Id, minted: set<Id>, before: map<string, Id>, ps: seq<Pending>, i: nat, b: string,
    mid: map<string, Id>, after: map<string, Id>)
    requires i < |ps| && MergesOne(s, self, mid, ps[i], after)
    requires Exact(s, self, minted, before, ps[..i], b, Lookup(mid, b))
    requires b in after && after[b] in s && s[after[b]].kind == NODE_HEAD ==> after[b] in minted
    ensures Exact(s, self, minted, before, ps[..i + 1], b, Lookup(after, b))
  {
    NamedOnce(ps, i, b);
    LoseNothing(s, self, mid, [ps[i]], after);
    var c := Membership.Named(Contributed([ps[i]], b));
    if b in Touched([ps[i]]) {
      var isMinted :| Carries(s, self, Lookup(mid, b), c, after[b], isMinted);
      CoveredAdds(s, self, minted, before, ps, i, b, Lookup(mid, b), after[b], isMinted);
    } else {
      assert c == {};
      ExactStays(s, self, minted, before, ps[..i], ps[..i + 1], b, Lookup(mid, b));
    }
  }

  lemma ExactStays(
    s: Store, self: Id, minted: set<Id>, before: map<string, Id>, ps: seq<Pending>, more: seq<Pending>, b: string,
    h: Option<Id>)
    requires Exact(s, self, minted, before, ps, b, h)
    requires Membership.Named(Contributed(more, b)) == Membership.Named(Contributed(ps, b))
    ensures Exact(s, self, minted, before, more, b, h)
  {
    assert forall a :: Due(s, before, more, b, a) <==> Due(s, before, ps, b, a);
  }

  lemma CoveredAdds(
    s: Store, self: Id, minted: set<Id>, before: map<string, Id>, ps: seq<Pending>, i: nat, b: string,
    prior: Option<Id>, h: Id, isMinted: bool)
    requires i < |ps| && Exact(s, self, minted, before, ps[..i], b, prior)
    requires Membership.Named(Contributed(ps[..i + 1], b)) ==
      Membership.Named(Contributed(ps[..i], b)) + Membership.Named(Contributed([ps[i]], b))
    requires Carries(s, self, prior, Membership.Named(Contributed([ps[i]], b)), h, isMinted)
    requires isMinted ==> h in minted
    ensures Exact(s, self, minted, before, ps[..i + 1], b, Some(h))
  {
    var g, c := Delta(s), Membership.Named(Contributed([ps[i]], b));
    forall a | Due(s, before, ps[..i + 1], b, a) ensures Reach(g, h, a) {
      if Due(s, before, ps[..i], b, a) {
        assert Reach(g, prior.value, a);
        assert Reaches(g, Optional(prior), a);
      } else {
        assert Reaches(g, c, a);
      }
      assert Covered(g, prior, c, a);
    }
    forall a | Reach(g, h, a) ensures Due(s, before, ps[..i + 1], b, a) || Own(s, self, minted, a) {
      if Reaches(g, Optional(prior), a) {
        assert Reach(g, prior.value, a);
      }
    }
  }

  lemma MintedAfter(
    s: Store, self: Id, minted: set<Id>, hs: seq<map<string, Id>>, ps: seq<Pending>, k: nat, b: string)
    requires OneByOne(s, self, hs, ps) && k < |ps| && HeadClaims(s, AllHeads(hs)) <= minted
    ensures MergesOne(s, self, hs[k], ps[k], hs[k + 1])
    ensures b in hs[k + 1] && hs[k + 1][b] in s && s[hs[k + 1][b]].kind == NODE_HEAD ==> hs[k + 1][b] in minted
  {
    if b in hs[k + 1] {
      assert hs[k + 1][b] in AllHeads(hs);
    }
  }

  lemma {:induction false} SerialExact(
    s: Store, self: Id, minted: set<Id>, hs: seq<map<string, Id>>, ps: seq<Pending>, i: nat, b: string)
    requires OneByOne(s, self, hs, ps) && i <= |ps| && HeadClaims(s, AllHeads(hs)) <= minted
    ensures Exact(s, self, minted, hs[0], ps[..i], b, Lookup(hs[i], b))
    decreases i
  {
    if i == 0 {
      assert Contributed(ps[..0], b) == [];
    } else {
      var k := i - 1;
      SerialExact(s, self, minted, hs, ps, k, b);
      MintedAfter(s, self, minted, hs, ps, k, b);
      OneMoreExact(s, self, minted, hs[0], ps, k, b, hs[k], hs[k + 1]);
    }
  }

  lemma GroupExact(
    s: Store, self: Id, minted: set<Id>, before: map<string, Id>, batch: seq<Pending>, after: map<string, Id>,
    b: string)
    requires Commits(s, self, before, batch, after)
    requires HeadClaims(s, after.Values) <= minted
    ensures Exact(s, self, minted, before, batch, b, Lookup(after, b))
  {
    LoseNothing(s, self, before, batch, after);
    if b in Touched(batch) {
      assert after[b] in after.Values;
    } else {
      Untouched(batch, b);
    }
  }

  lemma SameOffers(ps: seq<Pending>, batch: seq<Pending>, b: string)
    requires forall p :: p in ps <==> p in batch
    ensures Membership.Named(Contributed(ps, b)) == Membership.Named(Contributed(batch, b))
  {
    forall r ensures r in Membership.Named(Contributed(ps, b)) <==> r in Membership.Named(Contributed(batch, b)) {
      ContributedBy(ps, b, Some(r));
      ContributedBy(batch, b, Some(r));
    }
  }

  /** A group commit and the serial reference agree, whatever the order the serial one takes.
      Of every branch both hold all it had and all that was brought, and beyond that nothing but
      heads minted on either side and the Sequencer's own contributor closure. */
  lemma GroupIsSerial(
    s: Store, self: Id, hs: seq<map<string, Id>>, ps: seq<Pending>, batch: seq<Pending>, after: map<string, Id>,
    b: string)
    requires OneByOne(s, self, hs, ps) && forall p :: p in ps <==> p in batch
    requires Commits(s, self, hs[0], batch, after)
    ensures forall a :: Due(s, hs[0], batch, b, a) ==>
      b in hs[|ps|] && Reach(Delta(s), hs[|ps|][b], a) && b in after && Reach(Delta(s), after[b], a)
    ensures var minted := HeadClaims(s, AllHeads(hs) + after.Values); forall a :: !Own(s, self, minted, a) ==>
      ((b in hs[|ps|] && Reach(Delta(s), hs[|ps|][b], a)) <==> (b in after && Reach(Delta(s), after[b], a)))
  {
    var minted := HeadClaims(s, AllHeads(hs) + after.Values);
    SerialExact(s, self, minted, hs, ps, |ps|, b);
    assert ps[..|ps|] == ps;
    GroupExact(s, self, minted, hs[0], batch, after, b);
    SameOffers(ps, batch, b);
    assert forall a :: Due(s, hs[0], ps, b, a) <==> Due(s, hs[0], batch, b, a);
  }

  // ---- The serial Sequencer ----

  // A merge whose table stands may still fail: its tags are written last.
  datatype Receipt = Done(head: Id) | Untagged | Refused

  ghost predicate AllComplete(s: Store, ids: set<Id>) {
    forall a :: a in ids ==> Complete(Delta(s), a)
  }

  lemma CompleteLasts(s: Store, s': Store, ids: set<Id>)
    requires Grows(s, s') && AllComplete(s, ids)
    ensures AllComplete(s', ids)
    ensures forall a, b :: a in ids ==> (Reach(Delta(s'), a, b) <==> Reach(Delta(s), a, b))
  {
    GrowsDelta(s, s');
    forall a | a in ids
      ensures Complete(Delta(s'), a) && forall b :: Reach(Delta(s'), a, b) <==> Reach(Delta(s), a, b)
    {
      ExtendClosure(Delta(s), Delta(s'), a);
    }
  }

  /** What merging one contribution needs complete, so that no closure test meets a gap. */
  function Touches(self: Id, heads: map<string, Id>, p: Pending): set<Id> {
    heads.Values + HeadsOf(p) + {self}
  }

  /** Heads that have a contribution merged in hold it. */
  lemma MergedHolds(s: Store, self: Id, before: map<string, Id>, p: Pending, after: map<string, Id>)
    requires MergesOne(s, self, before, p, after) && AllComplete(s, Touches(self, before, p))
    ensures HoldsAll(s, after, [p])
  {
    var g := Delta(s);
    LoseNothing(s, self, before, [p], after);
    forall b | b in Touched([p]) ensures Holds(s, Lookup(after, b), Membership.Named(Contributed([p], b))) {
      var c := Membership.Named(Contributed([p], b));
      OfferedHere(p, b);
      var isMinted :| Carries(s, self, Lookup(before, b), c, after[b], isMinted);
      forall h | h in c ensures Reach(g, after[b], h) {
        ReachRefl(g, h);
        assert Reaches(g, c, h);
      }
      forall a | Reach(g, after[b], a) ensures a in s {
        if Reaches(g, Optional(Lookup(before, b)), a) {
          assert before[b] in before.Values;
        }
      }
    }
  }

  lemma OfferedHere(p: Pending, b: string)
    requires b in Touched([p])
    ensures Membership.Named(Contributed([p], b)) <= HeadsOf(p)
  {
    assert [p][..0] == [];
    NextPending([p], 0);
    assert [p][..1] == [p];
  }

  /** dev.Merge. It keeps its head, heads and mints as the concurrent Sequencer does. */
  class Dev {
    const s: Sequencer

    constructor (s: Sequencer)
      ensures this.s == s
    {
      this.s := s;
    }

    method FoldOne(p: Pending) returns (r: Option<map<string, Id>>)
      requires s.Ready() && s.head.Some? && IsOpen(s.u.store, s.head.value)
      modifies s`now, s.u
      ensures s.Ready() && Grows(old(s.u.store), s.u.store) && IsOpen(s.u.store, s.head.value)
      ensures Branches(s.u.store, s.head.value) == old(Branches(s.u.store, s.head.value))
      ensures r.Some? ==> Commits(s.u.store, s.self, s.heads, [p], s.heads + r.value)
      ensures r.Some? && HoldsAll(old(s.u.store), s.heads, [p]) ==> r.value == map[]
    {
      var byBranch := s.Gather([p]);
      r := s.FoldAll(byBranch);
      MaterializedGrows(old(s.u.store), s.u.store, s.head.value);
      if r.Some? {
        Restated(s.heads, r.value, Touched([p]));
        NothingNeeded(old(s.u.store), s.heads, [p], r.value);
      }
    }

    /** Mint and bookmark the table over the head, and make it the head. */
    method Restate(newHeads: map<string, Id>) returns (r: Option<Id>)
      requires s.Ready() && s.head.Some? && IsOpen(s.u.store, s.head.value)
      modifies s`now, s`head, s.u, s.marks, s.marks.hist
      ensures s.Ready() && s.head.Some? && Grows(old(s.u.store), s.u.store)
      ensures IsOpen(s.u.store, s.head.value)
      ensures r.Some? ==> s.head == r
      ensures r.Some? ==> Branches(s.u.store, s.head.value) == old(Branches(s.u.store, s.head.value)) + newHeads
      ensures r.None? ==> s.head == old(s.head)
    {
      ghost var before := s.u.store;
      r := s.MintBranchTable(newHeads);
      MaterializedGrows(before, s.u.store, s.head.value);
      if r.None? {
        return;
      }
      TableRestates(s.u.store, r.value, s.head.value, s.self, newHeads);
      var ok := s.marks.Append(r.value);
      if !ok {
        return None;
      }
      s.head := r;
    }

    /** The branch heads are assigned before the table restating them has landed, and the tags
        come after it, so a failed Tag leaves the merge done. */
    method Merge(p: Pending) returns (r: Receipt)
      requires s.Ready() && s.head.Some? && IsOpen(s.u.store, s.head.value)
      requires forall b :: b in p.heads ==> Membership.Named(p.heads[b]) != {}
      modifies s, s.u, s.marks, s.marks.hist
      ensures s.Ready() && s.head.Some? && Grows(old(s.u.store), s.u.store)
      ensures IsOpen(s.u.store, s.head.value)
      ensures r.Done? ==> s.head == Some(r.head)
      ensures !r.Refused? ==> MergesOne(s.u.store, s.self, old(s.heads), p, s.heads)
      ensures !r.Refused? && old(s.Published()) ==> s.Published()
      ensures r.Refused? ==> s.head == old(s.head)
      ensures r.Refused? ==> s.heads == old(s.heads) || MergesOne(s.u.store, s.self, old(s.heads), p, s.heads)
      ensures HoldsAll(old(s.u.store), old(s.heads), [p]) ==>
        !r.Untagged? && s.head == old(s.head) && s.heads == old(s.heads)
    {
      var folded := FoldOne(p);
      if folded.None? {
        return Refused;
      }
      if folded.value == map[] {
        assert s.heads + map[] == s.heads;
        return Done(s.head.value);
      }
      r := Advance(p, folded.value);
    }

    method Advance(p: Pending, newHeads: map<string, Id>) returns (r: Receipt)
      requires s.Ready() && s.head.Some? && IsOpen(s.u.store, s.head.value)
      requires MergesOne(s.u.store, s.self, s.heads, p, s.heads + newHeads)
      modifies s, s.u, s.marks, s.marks.hist
      ensures s.Ready() && s.head.Some? && Grows(old(s.u.store), s.u.store) && IsOpen(s.u.store, s.head.value)
      ensures s.heads == old(s.heads) + newHeads && MergesOne(s.u.store, s.self, old(s.heads), p, s.heads)
      ensures r.Done? ==> s.head == Some(r.head)
      ensures r.Refused? ==> s.head == old(s.head)
      ensures !r.Refused? ==>
        Branches(s.u.store, s.head.value) == old(Branches(s.u.store, s.head.value)) + newHeads
    {
      ghost var before, heads := s.u.store, s.heads;
      s.heads := s.heads + newHeads;
      var head := Restate(newHeads);
      CommitsLast(before, s.u.store, s.self, heads, [p], s.heads);
      if head.None? {
        return Refused;
      }
      var tagged: bool := *;
      r := if tagged then Done(head.value) else Untagged;
    }

    /** A merge that failed, tried again. `mid` and `memory` are what it left. The second receipt
        reaches the contribution exactly if memory was not left holding it, or the archive's
        head reached it as well: a failure between memory and table turns into a receipt for
        claims no archive holds. */
    method MergeTwice(p: Pending)
      returns (first: Receipt, again: Receipt, ghost mid: Store, ghost memory: map<string, Id>)
      requires s.Ready() && s.Published() && s.head.Some?
      requires forall b :: b in p.heads ==> Membership.Named(p.heads[b]) != {}
      requires AllComplete(s.u.store, Touches(s.self, s.heads, p) + {s.head.value})
      modifies s, s.u, s.marks, s.marks.hist
      ensures first.Refused? ==> memory == old(s.heads) || MergesOne(mid, s.self, old(s.heads), p, memory)
      ensures first.Refused? && again.Done? ==>
        ((forall h :: h in HeadsOf(p) ==> Reach(Delta(s.u.store), again.head, h)) <==>
         !HoldsAll(mid, memory, [p]) || forall h :: h in HeadsOf(p) ==> Reach(Delta(mid), old(s.head.value), h))
    {
      ghost var start, head, heads := s.u.store, s.head, s.heads;
      first := Merge(p);
      mid, memory := s.u.store, s.heads;
      CompleteLasts(start, mid, Touches(s.self, heads, p) + {head.value});
      StillPublished(start, mid, head, heads);
      if first.Refused? && memory != heads {
        MergedHolds(mid, s.self, heads, p, memory);
      }
      again := Merge(p);
      CompleteLasts(mid, s.u.store, Touches(s.self, heads, p) + {head.value});
      if first.Refused? && again.Done? && memory == heads {
        MergedHolds(s.u.store, s.self, heads, p, s.heads);
        HeldIsReached(s.u.store, again.head, s.heads, p);
      }
    }
  }

  lemma TinyComplete(g: Graph, a: Id)
    requires g.Keys == {0, 1, 2} && (forall x :: x in g ==> g[x] <= {0}) && a in g && g[0] == {}
    ensures Complete(g, a) && (a != 2 ==> !Reach(g, a, 2))
  {
    assert Closed(g, {0, a});
    forall b | Reach(g, a, b) ensures b in {0, a} {
      ClosedHolds(g, {0, a}, a, b);
    }
  }

  /** A branch new to the archive takes the one head contributed to it. */
  lemma SingleMerges(s: Store, self: Id, p: Pending, b: string, h: Id)
    requires p.heads == map[b := [Some(h)]]
    ensures MergesOne(s, self, map[], p, map[b := h]) && h in HeadsOf(p)
  {
    NextPending([p], 0);
    assert [p][..1] == [p] && [p][..0] == [];
    assert Some(h) in p.heads[b];
    assert FoldsTo(Delta(s), None, {h}, {h}) && Heads(s, self, {h}, h);
  }

  /** And so it can be: over the contributor 0 stand an archive with no branch, at 1, and the one
      head 2 of a contribution. Its merge assigns 2 to the branch and then fails to land the
      table; the next one finds 2 held and names 1, which does not reach it. */
  lemma MergeAgainMisses(s: Store, p: Pending, b: string)
    requires s.Keys == {0, 1, 2} && Attributed(s, 0) && |s[1].edges| == |s[2].edges| == 1
    requires p.heads == map[b := [Some(2)]]
    ensures IsOpen(s, 1) && Branches(s, 1) == map[] && AllComplete(s, {0, 1, 2})
    ensures MergesOne(s, 0, map[], p, map[b := 2]) && HoldsAll(s, map[b := 2], [p])
    ensures 2 in HeadsOf(p) && !Reach(Delta(s), 1, 2)
  {
    TinyArchive(s);
    SingleMerges(s, 0, p, b, 2);
    MergedHolds(s, 0, map[], p, map[b := 2]);
  }

  lemma TinyArchive(s: Store)
    requires s.Keys == {0, 1, 2} && Attributed(s, 0) && |s[1].edges| == |s[2].edges| == 1
    ensures IsOpen(s, 1) && Branches(s, 1) == map[] && AllComplete(s, {0, 1, 2}) && !Reach(Delta(s), 1, 2)
  {
    assert s[1].edges == s[2].edges == [Edge(0, EDGE_CONTRIBUTOR, None, None)];
    assert Ranks(s, a => a);
    PlainShows(s, 1);
    forall a | a in s ensures Complete(Delta(s), a) && (a != 2 ==> !Reach(Delta(s), a, 2)) {
      TinyComplete(Delta(s), a);
    }
  }

  /** A failed merge of something new leaves memory holding it and the archive not, so the
      next merge of it succeeds with a head that does not reach it. Heads in memory that match
      the archive are what rules this out. */
  lemma HeldIsReached(s: Store, head: Id, heads: map<string, Id>, p: Pending)
    requires IsOpen(s, head) && HoldsAll(s, heads, [p])
    ensures Branches(s, head) == heads ==> forall h :: h in HeadsOf(p) ==> Reach(Delta(s), head, h)
  {
    if Branches(s, head) == heads {
      forall h | h in HeadsOf(p) ensures Reach(Delta(s), head, h) {
        var b, o :| b in p.heads && o in p.heads[b] && o == Some(h);
        assert p in [p] && b in Touched([p]);
        ContributedBy([p], b, o);
        TableReaches(s, head, b);
        ReachTrans(Delta(s), head, heads[b], h);
      }
    }
  }
}
