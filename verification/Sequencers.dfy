/** The concurrent Sequencer's sequencing thread (concurrent.go): fold each touched branch,
    mint one diff table over the previous one, bookmark it, and only then publish. */
module Sequencers {
  import opened Graphs
  import opened Claims
  import opened Options
  import opened Diffs
  import opened Folds
  import Membership
  import Bookmarks

  // One persisted contribution waiting for the commit.
  datatype Pending = Pending(heads: map<string, seq<Option<Id>>>, ids: seq<Id>)

  // A founding whose archive stands may still fail: its tags are written last.
  datatype Founding = Bound | BoundUntagged | NotBound

  datatype Fold = Failed | Kept(head: Id) | Moved(head: Id)

  function Lookup(m: map<string, Id>, b: string): Option<Id> {
    if b in m then Some(m[b]) else None
  }

  function HeadsOf(p: Pending): set<Id> {
    set b, o | b in p.heads && o in p.heads[b] && o.Some? :: o.value
  }

  function Touched(batch: seq<Pending>): set<string> {
    set p, b | p in batch && b in p.heads :: b
  }

  /** Every head the batch contributes to branch b, in queue order. */
  function Contributed(batch: seq<Pending>, b: string): seq<Option<Id>> {
    if batch == [] then []
    else
      var p := batch[|batch| - 1];
      Contributed(batch[..|batch| - 1], b) + if b in p.heads then p.heads[b] else []
  }

  function ByBranch(batch: seq<Pending>): map<string, seq<Option<Id>>> {
    map b | b in Touched(batch) :: Contributed(batch, b)
  }

  function MaxHeight(s: Store, refs: set<Id>): (h: nat)
    requires refs <= s.Keys
    ensures forall r :: r in refs ==> s[r].height <= h
    ensures h == 0 || exists r :: r in refs && s[r].height == h
  {
    if refs == {} then 0
    else
      var r :| r in refs;
      var h := MaxHeight(s, refs - {r});
      assert forall x :: x in refs ==> x == r || x in refs - {r};
      if s[r].height > h then s[r].height else h
  }

  /** Only the touched branches differ, and each of those is there afterwards. */
  ghost predicate Leaves(before: map<string, Id>, after: map<string, Id>, touched: set<string>) {
    && (forall b :: b in touched ==> b in after)
    && (forall b :: b !in touched ==> Lookup(before, b) == Lookup(after, b))
  }

  lemma Restated(before: map<string, Id>, changed: map<string, Id>, touched: set<string>)
    requires changed.Keys <= touched && forall b :: b in touched ==> b in before + changed
    ensures Leaves(before, before + changed, touched)
  {
  }

  /** after is a fold of every branch gathered. */
  ghost predicate FoldedAll(
    s: Store, self: Id, before: map<string, Id>, byBranch: map<string, seq<Option<Id>>>, after: map<string, Id>)
  {
    forall b :: b in byBranch ==>
      b in after && Folded(s, self, Lookup(before, b), Membership.Named(byBranch[b]), after[b])
  }

  lemma FoldedAllGrows(
    s: Store, s': Store, self: Id, before: map<string, Id>, byBranch: map<string, seq<Option<Id>>>,
    after: map<string, Id>)
    requires Grows(s, s') && FoldedAll(s, self, before, byBranch, after)
    ensures FoldedAll(s', self, before, byBranch, after)
  {
    forall b | b in byBranch ensures Folded(s', self, Lookup(before, b), Membership.Named(byBranch[b]), after[b]) {
      FoldedGrows(s, s', self, Lookup(before, b), Membership.Named(byBranch[b]), after[b]);
    }
  }

  /** A branch that did not move is not restated. */
  function Record(newHeads: map<string, Id>, b: string, f: Fold): map<string, Id> {
    if f.Moved? then newHeads[b := f.head] else newHeads
  }

  lemma FoldedAllNext(
    s: Store, self: Id, before: map<string, Id>, byBranch: map<string, seq<Option<Id>>>, left: set<string>,
    newHeads: map<string, Id>, b: string, f: Fold)
    requires b in left && left <= byBranch.Keys && newHeads.Keys <= byBranch.Keys - left
    requires FoldedAll(s, self, before, byBranch - left, before + newHeads)
    requires !f.Failed? && Folded(s, self, Lookup(before, b), Membership.Named(byBranch[b]), f.head)
    requires f.Kept? ==> b in before && before[b] == f.head
    ensures FoldedAll(s, self, before, byBranch - (left - {b}), before + Record(newHeads, b, f))
  {
    var after := before + Record(newHeads, b, f);
    forall c | c in byBranch - (left - {b})
      ensures c in after && Folded(s, self, Lookup(before, c), Membership.Named(byBranch[c]), after[c])
    {
      if c == b {
        assert after[b] == f.head;
      } else {
        assert c in byBranch - left && after[c] == (before + newHeads)[c];
      }
    }
  }

  // ---- Merging again what is already held ----

  /** The branch's closure is held in full and the contributed heads lie in it. */
  ghost predicate Holds(s: Store, prior: Option<Id>, contributed: set<Id>) {
    && prior.Some? && Complete(Delta(s), prior.value)
    && forall h :: h in contributed ==> Reach(Delta(s), prior.value, h)
  }

  ghost predicate HoldsAll(s: Store, heads: map<string, Id>, batch: seq<Pending>) {
    forall b :: b in Touched(batch) ==> Holds(s, Lookup(heads, b), Membership.Named(Contributed(batch, b)))
  }

  ghost predicate Needed(
    s: Store, heads: map<string, Id>, byBranch: map<string, seq<Option<Id>>>, newHeads: map<string, Id>)
  {
    forall b :: b in newHeads && b in byBranch ==> !Holds(s, Lookup(heads, b), Membership.Named(byBranch[b]))
  }

  lemma HoldsGrows(s: Store, s': Store, prior: Option<Id>, contributed: set<Id>)
    requires Grows(s, s') && Holds(s, prior, contributed)
    ensures Holds(s', prior, contributed)
  {
    GrowsDelta(s, s');
    ExtendClosure(Delta(s), Delta(s'), prior.value);
  }

  lemma NothingNeeded(s: Store, heads: map<string, Id>, batch: seq<Pending>, newHeads: map<string, Id>)
    requires newHeads.Keys <= Touched(batch) && Needed(s, heads, ByBranch(batch), newHeads)
    ensures HoldsAll(s, heads, batch) ==> newHeads == map[]
  {
    if newHeads != map[] {
      var b :| b in newHeads;
      assert !Holds(s, Lookup(heads, b), Membership.Named(ByBranch(batch)[b]));
    }
  }

  /** No update is lost: every touched branch holds what it held and what the batch brought. */
  ghost predicate MergedAll(s: Store, self: Id, before: map<string, Id>, batch: seq<Pending>, after: map<string, Id>) {
    forall b :: b in Touched(batch) ==>
      b in after && Merged(s, self, Lookup(before, b), Membership.Named(Contributed(batch, b)), after[b])
  }

  lemma LoseNothing(s: Store, self: Id, before: map<string, Id>, batch: seq<Pending>, after: map<string, Id>)
    requires FoldedAll(s, self, before, ByBranch(batch), after)
    ensures MergedAll(s, self, before, batch, after)
  {
    forall b | b in Touched(batch)
      ensures b in after
      ensures Merged(s, self, Lookup(before, b), Membership.Named(Contributed(batch, b)), after[b])
    {
      assert b in ByBranch(batch);
      FoldLosesNothing(s, self, Lookup(before, b), Membership.Named(Contributed(batch, b)), after[b]);
    }
  }

  /** No edge copies a date, whatever its target carries. */
  predicate Undated(es: seq<Edge>) {
    forall e :: e in es ==> e.deleteBy.None?
  }

  lemma OneMore(es: seq<Edge>, e: Edge)
    ensures EdgeSet(es + [e]) == EdgeSet(es) + {e}
    ensures Targets(EdgeSet(es + [e])) == Targets(EdgeSet(es)) + {e.reference}
  {
    assert EdgeSet(es + [e]) == EdgeSet(es) + {e};
    forall r | r in Targets(EdgeSet(es)) + {e.reference} ensures r in Targets(EdgeSet(es + [e])) {
      if r == e.reference {
        assert e in EdgeSet(es + [e]);
      }
    }
  }

  lemma WithContributor(es: seq<Edge>, edges: seq<Edge>, self: Id)
    requires multiset(es) == multiset(edges + [Edge(self, EDGE_CONTRIBUTOR, None, None)])
    ensures EdgeSet(es) == EdgeSet(edges) + {Edge(self, EDGE_CONTRIBUTOR, None, None)}
    ensures Targets(EdgeSet(es)) == Targets(EdgeSet(edges)) + {self}
  {
    var e := Edge(self, EDGE_CONTRIBUTOR, None, None);
    SameElements(es, edges + [e]);
    OneMore(edges, e);
    assert EdgeSet(es) == EdgeSet(edges + [e]);
  }

  lemma TableAssembled(es: seq<Edge>, edges: seq<Edge>, prev: Option<Id>, self: Id, changed: map<string, Id>)
    requires EdgeSet(edges) == BranchEdges(changed) && DistinctNames(edges)
    requires multiset(es) == multiset(
      (if prev.Some? then edges + [Edge(prev.value, EDGE_DIFF, None, None)] else edges)
      + [Edge(self, EDGE_CONTRIBUTOR, None, None)])
    ensures EdgeSet(es) == TableEdges(prev, self, changed) && DistinctNames(es)
  {
    var all := if prev.Some? then edges + [Edge(prev.value, EDGE_DIFF, None, None)] else edges;
    if prev.Some? {
      OneMore(edges, Edge(prev.value, EDGE_DIFF, None, None));
    }
    WithContributor(es, all, self);
    DistinctPermutation(all + [Edge(self, EDGE_CONTRIBUTOR, None, None)], es);
  }

  class Universe {
    var store: Store
    const digest: Claim -> Id

    ghost predicate Valid()
      reads this
    {
      Addresses(digest) && ContentAddressed(store, digest)
    }

    constructor (digest: Claim -> Id)
      requires Addresses(digest)
      ensures Valid() && store == map[] && this.digest == digest
    {
      store := map[];
      this.digest := digest;
    }

    /** A put that errors may still have landed. */
    method PutClaim(c: Claim) returns (ok: bool)
      requires Valid()
      modifies this
      ensures Valid() && Grows(old(store), store)
      ensures store == old(store) || store == Put(old(store), digest, c)
      ensures ok ==> store == Put(old(store), digest, c)
    {
      PutGrows(store, digest, c);
      ok := *;
      var lands: bool := *;
      if ok || lands {
        store := Put(store, digest, c);
      }
    }
  }

  class Sequencer {
    const u: Universe
    const marks: Bookmarks.List
    const self: Id
    const key: Edge -> nat
    var now: int
    var head: Option<Id>
    var heads: map<string, Id>
    var committed: set<Id>

    ghost predicate Ready()
      reads this, u, marks, marks.hist
    {
      u.Valid() && Acyclic(u.store) && (marks.wrote ==> marks.Cached())
    }

    /** In memory stands what the archive at the head records. */
    ghost predicate Published()
      reads this, u
    {
      head.Some? ==> IsOpen(u.store, head.value) && Branches(u.store, head.value) == heads
    }

    /** Nothing was published. A bookmark that landed although it failed lies above the cache,
        where the next append overwrites it. */
    twostate predicate Unpublished()
      reads this, marks, marks.hist
    {
      && head == old(head) && heads == old(heads) && committed == old(committed)
      && (old(marks.wrote) ==>
        marks.hi == old(marks.hi) && Bookmarks.SameBut(old(marks.hist.slots), marks.hist.slots, marks.hi + 1))
    }

    constructor (u: Universe, marks: Bookmarks.List, self: Id, key: Edge -> nat, now: int)
      ensures this.u == u && this.marks == marks && this.self == self && this.key == key && this.now == now
      ensures head == None && heads == map[] && committed == {}
    {
      this.u, this.marks, this.self, this.key, this.now := u, marks, self, key, now;
      head, heads, committed := None, map[], {};
    }

    method AdoptHead() returns (ok: bool)
      requires Ready()
      modifies `head, marks`lo, marks`hi, marks`loaded, marks`probes
      ensures Ready()
      ensures ok && marks.wrote ==> head == Bookmarks.HeadAt(marks.hist.slots, marks.hi)
      ensures ok && !marks.wrote ==> forall l, h ::
        Bookmarks.Spans(marks.hist.slots, l, h) && (l <= marks.entry <= h || (l == 0 && h == -1)) ==>
          head == Bookmarks.HeadAt(marks.hist.slots, h)
    {
      var latest := marks.Latest();
      ok := latest.Some?;
      if ok {
        head := latest.value;
      }
    }

    /** adopt. On an empty list there is nothing to take over, and memory stays as it was. */
    method Adopt() returns (ok: bool)
      requires Ready()
      modifies `head, `heads, `committed, marks`lo, marks`hi, marks`loaded, marks`probes
      ensures Ready()
      ensures ok && head.None? ==> heads == old(heads)
      ensures ok && head.Some? ==> IsOpen(u.store, head.value) && self in committed && head.value in committed
      ensures ok && head.Some? && Tabular(Materialized(u.store, head.value).value) ==> Published()
      ensures ok && marks.wrote ==> head == Bookmarks.HeadAt(marks.hist.slots, marks.hi)
      ensures ok && !marks.wrote ==> forall l, h ::
        Bookmarks.Spans(marks.hist.slots, l, h) && (l <= marks.entry <= h || (l == 0 && h == -1)) ==>
          head == Bookmarks.HeadAt(marks.hist.slots, h)
    {
      ok := AdoptHead();
      if !ok {
        return;
      }
      if head.None? {
        return true;
      }
      var es := MaterializeOne(u.store, head.value, key);
      if es.None? {
        return false;
      }
      heads := LoadBranches(es.value);
      if Tabular(Materialized(u.store, head.value).value) {
        TabularBranches(Materialized(u.store, head.value).value, es.value, heads);
      }
      committed := committed + {self, head.value};
      ok := true;
    }

    /** What a founding that got past its first claims leaves in memory: the branch, over the
        head of an archive that records it once `landed`, and no branch before. */
    ghost predicate InMemory(branch: string, landed: bool)
      reads this, u
    {
      && head.Some? && heads.Keys == {branch} && IsOpen(u.store, head.value)
      && Branches(u.store, head.value) == if landed then heads else map[]
    }

    /** Found: the empty table, then the table binding the branch to the first contributor, and
        only the latter bookmarked. Memory changes before the second table has landed, and the
        tags come after it, so a failed Tag leaves the archive founded. */
    method Found(own: Claim, branch: string) returns (r: Founding)
      requires Ready() && head.None? && heads == map[]
      modifies this, u, marks, marks.hist
      ensures Ready() && Grows(old(u.store), u.store)
      ensures !r.NotBound? ==> Published() && InMemory(branch, true) && marks.wrote
      ensures !r.NotBound? ==>
        marks.hist.slots == old(marks.hist.slots)[marks.hi := Bookmarks.Entry(head.value)]
      ensures !r.NotBound? ==> {self, heads[branch], head.value} <= committed
      ensures r.NotBound? && head.None? ==> heads == map[] && committed == old(committed)
      ensures r.NotBound? && head.Some? ==> InMemory(branch, false)
    {
      var put := u.PutClaim(own);
      AddressedAcyclic(u.store, u.digest);
      if !put {
        return NotBound;
      }
      var first := Mint(NODE_CONTRIBUTOR, []);
      if first.None? {
        return NotBound;
      }
      var bt0 := MintBranchTable(map[]);
      if bt0.None? {
        return NotBound;
      }
      FirstTable(u.store, bt0.value, self, map[]);
      var ok := FoundOn(bt0.value, first.value, branch);
      assert heads.Keys == {branch};
      if !ok {
        return NotBound;
      }
      var tagged: bool := *;
      r := if tagged then Bound else BoundUntagged;
    }

    /** From where the in-memory head is assigned to where the archive stands. */
    method FoundOn(bt0: Id, first: Id, branch: string) returns (ok: bool)
      requires Ready() && heads == map[] && IsOpen(u.store, bt0) && Branches(u.store, bt0) == map[]
      modifies this, u, marks, marks.hist
      ensures Ready() && Grows(old(u.store), u.store)
      ensures heads == map[branch := first] && head.Some? && committed >= old(committed)
      ensures !ok ==> IsOpen(u.store, head.value) && Branches(u.store, head.value) == map[]
      ensures ok ==> Published() && marks.wrote && {self, first, bt0, head.value} <= committed
      ensures ok ==> marks.hist.slots == old(marks.hist.slots)[marks.hi := Bookmarks.Entry(head.value)]
    {
      head := Some(bt0);
      heads := map[branch := first];
      var bt1 := MintBranchTable(heads);
      if bt1.None? {
        StillPublished(old(u.store), u.store, head, map[]);
        return false;
      }
      StillPublished(old(u.store), u.store, head, map[]);
      ok := Bookmark(bt0, bt1.value);
      if ok {
        head := bt1;
        committed := committed + {self, first, bt0, bt1.value};
      }
    }

    /** Append the table minted over the head. */
    method Bookmark(bt0: Id, bt1: Id) returns (ok: bool)
      requires Ready() && IsOpen(u.store, bt0) && Branches(u.store, bt0) == map[]
      requires bt1 in u.store && IsTable(u.store[bt1], Some(bt0), self, heads)
      modifies marks, marks.hist
      ensures Ready() && IsOpen(u.store, bt1) && Branches(u.store, bt1) == heads
      ensures ok ==> marks.wrote && marks.hist.slots == old(marks.hist.slots)[marks.hi := Bookmarks.Entry(bt1)]
    {
      TableRestates(u.store, bt1, bt0, self, heads);
      OverlayIsAll(heads, heads);
      ok := marks.Append(bt1);
    }

    method Tick() returns (t: int)
      modifies `now
      ensures t == now && now >= old(now)
    {
      var d: nat :| true;
      now := now + d;
      t := now;
    }

    /** NewClaim ... WithAutoHeight ... Sign, then PutClaims. A reference the store does not
        hold has no height to build on, and fails the mint. */
    method Mint(kind: string, edges: seq<Edge>) returns (r: Option<Id>)
      requires Ready()
      modifies `now, u
      ensures Ready() && now >= old(now) && Grows(old(u.store), u.store)
      ensures r.Some? ==> r.value in u.store
      ensures r.Some? ==> var c := u.store[r.value];
        && c.kind == kind && c.edgesOmit == {} && c.deleteBy == None && c.createdAt == now
        && multiset(c.edges) == multiset(edges + [Edge(self, EDGE_CONTRIBUTOR, None, None)])
        && Targets(EdgeSet(c.edges)) <= old(u.store).Keys
        && c.height == MaxHeight(old(u.store), Targets(EdgeSet(c.edges))) + 1
    {
      var all := edges + [Edge(self, EDGE_CONTRIBUTOR, None, None)];
      var es := SortEdges(all, key);
      var t := Tick();
      var refs := Targets(EdgeSet(es));
      if !(refs <= u.store.Keys) {
        return None;
      }
      var c := Claim(kind, es, t, MaxHeight(u.store, refs) + 1, None, {}, 0);
      var ok := u.PutClaim(c);
      AddressedAcyclic(u.store, u.digest);
      r := if ok then Some(u.digest(c)) else None;
    }

    method InClosure(from: seq<Option<Id>>, id: Id) returns (r: Option<bool>)
      requires Ready()
      ensures r == Some(true) ==> Reaches(Delta(u.store), Membership.Named(from), id)
      ensures r == Some(false) ==>
        (forall h :: h in Membership.Named(from) ==> Complete(Delta(u.store), h)) ==>
          !Reaches(Delta(u.store), Membership.Named(from), id)
    {
      var fails: bool := *;
      if fails {
        return None;
      }
      var held := Membership.InClosure(u.store, from, id, key);
      r := Some(held);
    }

    /** The heads of contributed the branch does not already reach. */
    method Unheld(prior: Option<Id>, contributed: seq<Option<Id>>) returns (r: Option<set<Id>>)
      requires Ready()
      ensures r.Some? ==> r.value <= Membership.Named(contributed)
      ensures r.Some? ==> forall h :: h in Membership.Named(contributed) ==>
        h in r.value || (prior.Some? && Reach(Delta(u.store), prior.value, h))
      ensures r.Some? && prior.Some? && Complete(Delta(u.store), prior.value) ==>
        forall h :: h in r.value ==> !Reach(Delta(u.store), prior.value, h)
      ensures r.Some? && prior.None? ==> r.value == Membership.Named(contributed)
    {
      var unheld: set<Id> := {};
      for i := 0 to |contributed|
        invariant unheld <= Membership.Named(contributed[..i])
        invariant forall h :: h in Membership.Named(contributed[..i]) ==>
          h in unheld || (prior.Some? && Reach(Delta(u.store), prior.value, h))
        invariant prior.Some? && Complete(Delta(u.store), prior.value) ==>
          forall h :: h in unheld ==> !Reach(Delta(u.store), prior.value, h)
        invariant prior.None? ==> unheld == Membership.Named(contributed[..i])
      {
        assert contributed[..i + 1] == contributed[..i] + [contributed[i]];
        if contributed[i].None? {
          continue;
        }
        var h := contributed[i].value;
        if prior.Some? {
          assert Membership.Named([prior]) == {prior.value};
          var held := InClosure([prior], h);
          if held.None? {
            return None;
          }
          if held.value {
            continue;
          }
        }
        unheld := unheld + {h};
      }
      assert contributed[..|contributed|] == contributed;
      r := Some(unheld);
    }

    /** What the new head must stand over: nothing when the branch reaches every head already. */
    method FoldRoots(prior: Option<Id>, contributed: seq<Option<Id>>) returns (r: Option<set<Id>>)
      requires Ready()
      ensures r.Some? && r.value != {} ==>
        FoldsTo(Delta(u.store), prior, Membership.Named(contributed), r.value)
      ensures r.Some? && r.value == {} ==> forall h :: h in Membership.Named(contributed) ==>
        prior.Some? && Reach(Delta(u.store), prior.value, h)
      ensures r.Some? && r.value != {} && prior.Some? && Complete(Delta(u.store), prior.value) ==>
        exists h :: h in Membership.Named(contributed) && !Reach(Delta(u.store), prior.value, h)
    {
      var unheld := Unheld(prior, contributed);
      if unheld.None? || unheld.value == {} || prior.None? {
        return unheld;
      }
      var list := Listed(unheld.value);
      assert Membership.Named(list) == unheld.value;
      var reached := InClosure(list, prior.value);
      if reached.None? {
        return None;
      }
      r := Some(if reached.value then unheld.value else unheld.value + {prior.value});
    }

    method MintHead(ghost prior: Option<Id>, ghost news: set<Id>, roots: set<Id>) returns (r: Option<Id>)
      requires Ready() && FoldsTo(Delta(u.store), prior, news, roots)
      modifies `now, u
      ensures Ready() && now >= old(now) && Grows(old(u.store), u.store)
      ensures r.Some? ==> Folded(u.store, self, prior, news, r.value)
      ensures r.Some? ==> r.value in u.store && Undated(u.store[r.value].edges)
    {
      var edges := HeadEdges(roots);
      ghost var before := u.store;
      r := Mint(NODE_HEAD, edges);
      if r.Some? {
        FoldsGrow(before, u.store, prior, news, roots);
        WithContributor(u.store[r.value].edges, edges, self);
        SameElements(u.store[r.value].edges, edges + [Edge(self, EDGE_CONTRIBUTOR, None, None)]);
        assert Heads(u.store, self, roots, r.value);
      }
    }

    /** foldBranch: the branch's new head, or its old one when it reached everything already. */
    method FoldBranch(b: string, contributed: seq<Option<Id>>) returns (r: Fold)
      requires Ready()
      modifies `now, u
      ensures Ready() && now >= old(now) && Grows(old(u.store), u.store)
      ensures !r.Failed? ==>
        Folded(u.store, self, Lookup(heads, b), Membership.Named(contributed), r.head)
      ensures r.Kept? ==> b in heads && r.head == heads[b] && u.store == old(u.store)
      ensures Holds(old(u.store), Lookup(heads, b), Membership.Named(contributed)) ==> !r.Moved?
    {
      var prior := Lookup(heads, b);
      ghost var news := Membership.Named(contributed);
      var roots := FoldRoots(prior, contributed);
      if roots.None? || (roots.value == {} && prior.None?) {
        return Failed;
      }
      if roots.value == {} {
        KeptFolds(u.store, self, prior.value, news);
        return Kept(prior.value);
      }
      if |roots.value| == 1 {
        var h := Only(roots.value);
        assert Heads(u.store, self, {h}, h);
        return Moved(h);
      }
      var minted := MintHead(prior, news, roots.value);
      if minted.None? {
        return Failed;
      }
      r := Moved(minted.value);
    }

    method Listed(ids: set<Id>) returns (list: seq<Option<Id>>)
      ensures forall o :: o in list <==> o.Some? && o.value in ids
    {
      list := [];
      var left := ids;
      while left != {}
        invariant left <= ids && forall o :: o in list <==> o.Some? && o.value in ids - left
        decreases left
      {
        var a :| a in left;
        left := left - {a};
        list := list + [Some(a)];
      }
    }

    method Only(ids: set<Id>) returns (a: Id)
      requires |ids| == 1
      ensures ids == {a}
    {
      a :| a in ids;
      assert |ids - {a}| == 0;
    }

    method HeadEdges(ids: set<Id>) returns (edges: seq<Edge>)
      ensures Targets(EdgeSet(edges)) == ids && Undated(edges)
    {
      edges := [];
      var left := ids;
      while left != {}
        invariant left <= ids && Targets(EdgeSet(edges)) == ids - left && Undated(edges)
        decreases left
      {
        var a :| a in left;
        left := left - {a};
        OneMore(edges, Edge(a, EDGE_HEAD, None, None));
        edges := edges + [Edge(a, EDGE_HEAD, None, None)];
      }
    }

    method NamedEdges(changed: map<string, Id>) returns (edges: seq<Edge>)
      ensures EdgeSet(edges) == BranchEdges(changed) && DistinctNames(edges)
    {
      edges := [];
      var left := changed.Keys;
      while left != {}
        invariant left <= changed.Keys && DistinctNames(edges)
        invariant forall e :: e in edges ==>
          e.name.Some? && e.name.value in changed.Keys - left &&
            e == Edge(changed[e.name.value], EDGE_BRANCH, e.name, None)
        invariant forall n :: n in changed.Keys - left ==> Edge(changed[n], EDGE_BRANCH, Some(n), None) in edges
        decreases left
      {
        var n :| n in left;
        left := left - {n};
        edges := edges + [Edge(changed[n], EDGE_BRANCH, Some(n), None)];
      }
    }

    /** mintBranchTable: a diff over the table at the head, restating the changed branches. A
        diff edge without a name is refused where the claim is assembled. */
    method MintBranchTable(changed: map<string, Id>) returns (r: Option<Id>)
      requires Ready()
      modifies `now, u
      ensures Ready() && now >= old(now) && Grows(old(u.store), u.store)
      ensures r.Some? ==> r.value in u.store && IsTable(u.store[r.value], head, self, changed)
    {
      if head.Some? && "" in changed {
        return None;
      }
      var edges := NamedEdges(changed);
      var all := if head.Some? then edges + [Edge(head.value, EDGE_DIFF, None, None)] else edges;
      r := Mint(NODE_BRANCHES, all);
      if r.Some? {
        TableAssembled(u.store[r.value].edges, edges, head, self, changed);
      }
    }

    method Join(into: map<string, seq<Option<Id>>>, p: Pending) returns (r: map<string, seq<Option<Id>>>)
      ensures r.Keys == into.Keys + p.heads.Keys
      ensures forall b :: b in r ==>
        r[b] == (if b in into then into[b] else []) + (if b in p.heads then p.heads[b] else [])
    {
      r := into;
      var left := p.heads.Keys;
      while left != {}
        invariant left <= p.heads.Keys && r.Keys == into.Keys + (p.heads.Keys - left)
        invariant forall b :: b in r ==>
          r[b] == (if b in into then into[b] else []) + (if b in p.heads.Keys - left then p.heads[b] else [])
        decreases left
      {
        var b :| b in left;
        left := left - {b};
        r := r[b := (if b in r then r[b] else []) + p.heads[b]];
      }
    }

    /** What the batch contributes, branch by branch. */
    method Gather(batch: seq<Pending>) returns (byBranch: map<string, seq<Option<Id>>>)
      ensures byBranch == ByBranch(batch)
    {
      byBranch := map[];
      for i := 0 to |batch|
        invariant byBranch.Keys == Touched(batch[..i])
        invariant forall b :: b in byBranch ==> byBranch[b] == Contributed(batch[..i], b)
      {
        NextPending(batch, i);
        byBranch := Join(byBranch, batch[i]);
      }
      assert batch[..|batch|] == batch;
    }

    /** Fold every touched branch. Only the branches that moved are restated. */
    method FoldAll(byBranch: map<string, seq<Option<Id>>>) returns (r: Option<map<string, Id>>)
      requires Ready()
      modifies `now, u
      ensures Ready() && now >= old(now) && Grows(old(u.store), u.store)
      ensures r.Some? ==> r.value.Keys <= byBranch.Keys
      ensures r.Some? ==> Needed(old(u.store), heads, byBranch, r.value)
      ensures r.Some? ==> FoldedAll(u.store, self, heads, byBranch, heads + r.value)
    {
      var newHeads: map<string, Id> := map[];
      var left := byBranch.Keys;
      while left != {}
        invariant Ready() && now >= old(now) && Grows(old(u.store), u.store)
        invariant left <= byBranch.Keys && newHeads.Keys <= byBranch.Keys - left
        invariant Needed(old(u.store), heads, byBranch, newHeads)
        invariant FoldedAll(u.store, self, heads, byBranch - left, heads + newHeads)
        decreases left
      {
        var b :| b in left;
        ghost var before := u.store;
        var f := FoldBranch(b, byBranch[b]);
        if f.Failed? {
          return None;
        }
        FoldedAllGrows(before, u.store, self, heads, byBranch - left, heads + newHeads);
        if Holds(old(u.store), Lookup(heads, b), Membership.Named(byBranch[b])) {
          HoldsGrows(old(u.store), before, Lookup(heads, b), Membership.Named(byBranch[b]));
        }
        FoldedAllNext(u.store, self, heads, byBranch, left, newHeads, b, f);
        left := left - {b};
        newHeads := Record(newHeads, b, f);
      }
      r := Some(newHeads);
    }

    /** markBatch: what the batch put in the archive, for later walks to prune at. */
    method MarkBatch(batch: seq<Pending>)
      modifies `committed
      ensures committed == old(committed) + BatchIds(batch)
    {
      for i := 0 to |batch|
        invariant committed == old(committed) + BatchIds(batch[..i])
      {
        assert batch[..i + 1] == batch[..i] + [batch[i]];
        committed := committed + Elements(batch[i].ids) + HeadsOf(batch[i]);
      }
      assert batch[..|batch|] == batch;
    }

    /** Mint the next table and bookmark it. Nothing is published yet. */
    method Advance(newHeads: map<string, Id>) returns (r: Option<Id>)
      requires Ready() && Published() && head.Some?
      modifies `now, u, marks, marks.hist
      ensures Ready() && Published()
      ensures now >= old(now) && Grows(old(u.store), u.store)
      ensures r.Some? ==> r.value in u.store && IsTable(u.store[r.value], head, self, newHeads) && r != head
      ensures r.Some? ==> IsOpen(u.store, r.value) && Branches(u.store, r.value) == heads + newHeads
      ensures r.Some? ==> marks.wrote && marks.hist.slots == old(marks.hist.slots)[marks.hi := Bookmarks.Entry(r.value)]
      ensures r.None? && old(marks.wrote) ==> marks.hi == old(marks.hi)
      ensures r.None? && old(marks.wrote) ==>
        Bookmarks.SameBut(old(marks.hist.slots), marks.hist.slots, marks.hi + 1)
    {
      r := MintBranchTable(newHeads);
      StillPublished(old(u.store), u.store, head, heads);
      if r.None? {
        return;
      }
      TableRestates(u.store, r.value, head.value, self, newHeads);
      TableIsNew(u.store, r.value, head.value, self, newHeads);
      var ok := marks.Append(r.value);
      if !ok {
        return None;
      }
    }

    /** The head is a table over prev that turns the branches from before into the ones now. */
    ghost predicate Advanced(prev: Id, before: map<string, Id>)
      reads this, u, marks
    {
      && head.Some? && head.value in u.store && marks.wrote
      && exists changed :: IsTable(u.store[head.value], Some(prev), self, changed) && heads == before + changed
    }

    /** The mutation comes last. */
    method Publish(table: Id, newHeads: map<string, Id>, batch: seq<Pending>)
      requires IsOpen(u.store, table) && Branches(u.store, table) == heads + newHeads
      modifies `head, `heads, `committed
      ensures Published() && head == Some(table) && heads == old(heads) + newHeads
      ensures committed == old(committed) + newHeads.Values + {table} + BatchIds(batch)
    {
      heads := heads + newHeads;
      head := Some(table);
      committed := committed + newHeads.Values + {table};
      MarkBatch(batch);
    }

    /** What moved is restated in a new table, bookmarked, and only then published. */
    method Restate(batch: seq<Pending>, newHeads: map<string, Id>) returns (ok: bool)
      requires Ready() && Published() && head.Some?
      modifies this, u, marks, marks.hist
      ensures Ready() && Published() && head.Some?
      ensures now >= old(now) && Grows(old(u.store), u.store)
      ensures !ok ==> Unpublished()
      ensures ok ==> heads == old(heads) + newHeads && head != old(head) && Advanced(old(head).value, old(heads))
      ensures ok ==> marks.hist.slots == old(marks.hist.slots)[marks.hi := Bookmarks.Entry(head.value)]
      ensures ok ==> committed >= old(committed) + BatchIds(batch)
    {
      var table := Advance(newHeads);
      if table.None? {
        return false;
      }
      Publish(table.value, newHeads, batch);
      ok := true;
    }

    /** Fold the batch into the branches: which heads move, and to what. */
    method FoldBatch(batch: seq<Pending>) returns (r: Option<map<string, Id>>)
      requires Ready() && Published()
      modifies `now, u
      ensures Ready() && Published() && now >= old(now) && Grows(old(u.store), u.store)
      ensures r.Some? ==> Leaves(heads, heads + r.value, Touched(batch))
      ensures r.Some? ==> FoldedAll(u.store, self, heads, ByBranch(batch), heads + r.value)
      ensures r.Some? && HoldsAll(old(u.store), heads, batch) ==> r.value == map[]
    {
      var byBranch := Gather(batch);
      r := FoldAll(byBranch);
      StillPublished(old(u.store), u.store, head, heads);
      if r.Some? {
        Restated(heads, r.value, Touched(batch));
        NothingNeeded(old(u.store), heads, batch, r.value);
      }
    }

    /** Steps 6 and 7 for one batch. A failure publishes nothing; a success leaves every
        touched branch the union of what it held and what the batch contributes. */
    method Commit(batch: seq<Pending>) returns (ok: bool)
      requires Ready() && Published() && head.Some?
      modifies this, u, marks, marks.hist
      ensures Ready() && Published() && head.Some?
      ensures now >= old(now) && Grows(old(u.store), u.store)
      ensures !ok ==> Unpublished()
      ensures ok ==> Leaves(old(heads), heads, Touched(batch))
      ensures ok ==> MergedAll(u.store, self, old(heads), batch, heads)
      ensures ok && head == old(head) ==> heads == old(heads) && marks.hist.slots == old(marks.hist.slots)
      ensures ok && HoldsAll(old(u.store), old(heads), batch) ==> head == old(head)
      ensures ok && head != old(head) ==> Advanced(old(head).value, old(heads))
      ensures ok && head != old(head) ==>
        marks.hist.slots == old(marks.hist.slots)[marks.hi := Bookmarks.Entry(head.value)]
      ensures ok ==> committed >= old(committed) + BatchIds(batch)
    {
      var folded := FoldBatch(batch);
      if folded.None? {
        return false;
      }
      ghost var before, after := u.store, heads + folded.value;
      if folded.value == map[] {
        assert heads + folded.value == heads;
        MarkBatch(batch);
        ok := true;
      } else {
        ok := Restate(batch, folded.value);
      }
      FoldedAllGrows(before, u.store, self, old(heads), ByBranch(batch), after);
      LoseNothing(u.store, self, old(heads), batch, after);
    }
  }

  function BatchIds(batch: seq<Pending>): set<Id> {
    if batch == [] then {}
    else
      var p := batch[|batch| - 1];
      BatchIds(batch[..|batch| - 1]) + Elements(p.ids) + HeadsOf(p)
  }

  lemma {:induction false} Untouched(batch: seq<Pending>, b: string)
    requires b !in Touched(batch)
    ensures Contributed(batch, b) == []
  {
    if batch != [] {
      Untouched(batch[..|batch| - 1], b);
    }
  }

  lemma {:induction false} ContributedBy(work: seq<Pending>, b: string, o: Option<Id>)
    ensures o in Contributed(work, b) <==> exists p :: p in work && b in p.heads && o in p.heads[b]
  {
    if work != [] {
      var n := |work| - 1;
      ContributedBy(work[..n], b, o);
      assert work == work[..n] + [work[n]];
      if p :| p in work && b in p.heads && o in p.heads[b] {
        assert p in work[..n] || p == work[n];
      }
    }
  }

  lemma NextPending(batch: seq<Pending>, i: nat)
    requires i < |batch|
    ensures Touched(batch[..i + 1]) == Touched(batch[..i]) + batch[i].heads.Keys
    ensures forall b ::
      Contributed(batch[..i + 1], b) ==
        Contributed(batch[..i], b) + (if b in batch[i].heads then batch[i].heads[b] else [])
    ensures forall b :: b !in Touched(batch[..i]) ==> Contributed(batch[..i], b) == []
  {
    assert batch[..i + 1][..i] == batch[..i] && batch[..i + 1] == batch[..i] + [batch[i]];
    forall b | b !in Touched(batch[..i]) ensures Contributed(batch[..i], b) == [] {
      Untouched(batch[..i], b);
    }
  }

  lemma StillPublished(s: Store, s': Store, head: Option<Id>, heads: map<string, Id>)
    requires Acyclic(s') && Grows(s, s')
    requires head.Some? ==> IsOpen(s, head.value) && Branches(s, head.value) == heads
    ensures head.Some? ==> IsOpen(s', head.value) && Branches(s', head.value) == heads
  {
    if head.Some? {
      MaterializedGrows(s, s', head.value);
    }
  }

  function NameOf(e: Edge): string {
    if e.name.Some? then e.name.value else ""
  }

  /** loadBranches: a map of the branch edges of a materialised table. */
  method LoadBranches(es: seq<Edge>) returns (table: map<string, Id>)
    ensures forall e :: e in es && e.kind == EDGE_BRANCH ==> NameOf(e) in table
    ensures forall n :: n in table ==>
      exists e :: e in es && e.kind == EDGE_BRANCH && NameOf(e) == n && table[n] == e.reference
  {
    table := map[];
    for i := 0 to |es|
      invariant forall e :: e in es[..i] && e.kind == EDGE_BRANCH ==> NameOf(e) in table
      invariant forall n :: n in table ==>
        exists e :: e in es[..i] && e.kind == EDGE_BRANCH && NameOf(e) == n && table[n] == e.reference
    {
      assert es[..i + 1] == es[..i] + [es[i]];
      if es[i].kind == EDGE_BRANCH {
        table := table[NameOf(es[i]) := es[i].reference];
      }
    }
    assert es[..|es|] == es;
  }

  lemma TabularBranches(v: View, es: seq<Edge>, table: map<string, Id>)
    requires Tabular(v) && v.edges == EdgeSet(es) && v.named == LastNamed(es)
    requires forall e :: e in es && e.kind == EDGE_BRANCH ==> NameOf(e) in table
    requires forall n :: n in table ==>
      exists e :: e in es && e.kind == EDGE_BRANCH && NameOf(e) == n && table[n] == e.reference
    ensures table == BranchTable(v.named)
  {
    forall n | n in table ensures n in BranchTable(v.named) && BranchTable(v.named)[n] == table[n] {
      var e :| e in es && e.kind == EDGE_BRANCH && NameOf(e) == n && table[n] == e.reference;
      assert e in v.edges;
    }
    forall n | n in BranchTable(v.named) ensures n in table {
      assert v.named[n] in es;
    }
  }

  /** `base` with each of the changes laid over it in turn. */
  function Overlaid(base: map<string, Id>, changes: seq<map<string, Id>>): map<string, Id> {
    if changes == [] then base else Overlaid(base, changes[..|changes| - 1]) + changes[|changes| - 1]
  }

  /** Each of the tables is minted over the one before it and restates its changes. */
  ghost predicate TableChain(s: Store, self: Id, tables: seq<Id>, changes: seq<map<string, Id>>) {
    |tables| == |changes| + 1 && forall i :: 0 <= i < |changes| ==> TableOn(s, self, tables, changes[i], i)
  }

  ghost predicate TableOn(s: Store, self: Id, tables: seq<Id>, changed: map<string, Id>, i: nat)
    requires i + 1 < |tables|
  {
    tables[i + 1] in s && IsTable(s[tables[i + 1]], Some(tables[i]), self, changed)
  }

  lemma {:induction false} ChainRestates(s: Store, self: Id, tables: seq<Id>, changes: seq<map<string, Id>>, k: nat)
    requires TableChain(s, self, tables, changes) && IsOpen(s, tables[0]) && k <= |changes|
    ensures IsOpen(s, tables[k])
    ensures Branches(s, tables[k]) == Overlaid(Branches(s, tables[0]), changes[..k])
  {
    if k > 0 {
      ChainRestates(s, self, tables, changes, k - 1);
      assert TableOn(s, self, tables, changes[k - 1], k - 1);
      TableRestates(s, tables[k], tables[k - 1], self, changes[k - 1]);
      OverlaidOne(Branches(s, tables[0]), changes, k);
    }
  }

  lemma OverlaidOne(base: map<string, Id>, changes: seq<map<string, Id>>, k: nat)
    requires 0 < k <= |changes|
    ensures Overlaid(base, changes[..k]) == Overlaid(base, changes[..k - 1]) + changes[k - 1]
  {
    assert changes[..k][..k - 1] == changes[..k - 1];
  }

  lemma LaidOver(base: map<string, Id>, m: map<string, Id>, changed: map<string, Id>)
    ensures (base + m) + changed == base + (m + changed)
  {
  }

  lemma {:induction false} OverlaidOver(base: map<string, Id>, changes: seq<map<string, Id>>)
    ensures Overlaid(base, changes) == base + Overlaid(map[], changes)
  {
    if changes == [] {
      assert base + map[] == base;
    } else {
      var n := |changes| - 1;
      OverlaidOver(base, changes[..n]);
      LaidOver(base, Overlaid(map[], changes[..n]), changes[n]);
    }
  }

  lemma {:induction false} OverlaidKeys(changes: seq<map<string, Id>>, b: string)
    ensures b in Overlaid(map[], changes) <==> exists i :: 0 <= i < |changes| && b in changes[i]
  {
    if changes != [] {
      var n := |changes| - 1;
      OverlaidKeys(changes[..n], b);
      assert forall i :: 0 <= i < n ==> changes[..n][i] == changes[i];
    }
  }

  /** A Found that failed after assigning the head leaves branches in memory, `heads`, that no
      table records. What each later table restates goes into memory and archive alike, so the
      two agree again exactly when between them the tables have restated all of those. */
  lemma FailedFoundDiverges(
    s: Store, self: Id, heads: map<string, Id>, tables: seq<Id>, changes: seq<map<string, Id>>)
    requires TableChain(s, self, tables, changes) && IsOpen(s, tables[0]) && Branches(s, tables[0]) == map[]
    ensures IsOpen(s, tables[|changes|])
    ensures Branches(s, tables[|changes|]) == Overlaid(heads, changes) <==>
      forall b :: b in heads ==> exists i :: 0 <= i < |changes| && b in changes[i]
  {
    ChainRestates(s, self, tables, changes, |changes|);
    assert changes[..|changes|] == changes;
    OverlaidOver(heads, changes);
    forall b ensures b in Overlaid(map[], changes) <==> exists i :: 0 <= i < |changes| && b in changes[i] {
      OverlaidKeys(changes, b);
    }
    OverlayIsAll(heads, Overlaid(map[], changes));
  }

  lemma OverlayIsAll(heads: map<string, Id>, changed: map<string, Id>)
    ensures map[] + changed == changed
    ensures changed == heads + changed <==> heads.Keys <= changed.Keys
  {
    assert (heads + changed).Keys == heads.Keys + changed.Keys;
    if heads.Keys <= changed.Keys {
      assert heads + changed == changed;
    }
  }
}
