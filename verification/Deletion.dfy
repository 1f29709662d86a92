/** Planned deletion (deletion.go) and what a contribution does so that it strands nothing
    (graph.go, contribution.go): claims behind a scheduled one are cited by the head. */
module Deletion {
  import opened Graphs
  import opened Claims
  import opened Options
  import opened Diffs
  import opened Folds
  import opened Sequencers
  import Membership

  const NODE_EXPIRY := "contribution/expiry"

  /** The structural kinds may not schedule their own removal. */
  predicate Undeletable(kind: string) {
    kind == NODE_CONTRIBUTOR || kind == NODE_BRANCHES || kind == NODE_DELETE || kind == NODE_EXPIRY
  }

  /** The graph of the claims that carry no date: no planned sweep removes one of its steps. */
  function Live(s: Store): Graph {
    map a | a in s && s[a].deleteBy.None? :: Targets(EdgeSet(s[a].edges))
  }

  /** Only claims without a date lie on some path from h to c. */
  ghost predicate LiveReach(s: Store, h: Id, c: Id) {
    Reach(Live(s), h, c)
  }

  // ---- The sweep ----

  predicate Due(s: Store, a: Id, now: int) {
    a in s && s[a].deleteBy.Some? && s[a].deleteBy.value <= now
  }

  /** What a sweep from heads at now removes. */
  ghost predicate Swept(s: Store, heads: set<Id>, now: int, a: Id) {
    Due(s, a, now) && Reaches(Delta(s), heads, a)
  }

  /** s' is s after that sweep. */
  ghost predicate SweepOf(s: Store, s': Store, heads: set<Id>, now: int) {
    && (forall a :: a in s' <==> a in s && !Swept(s, heads, now, a))
    && forall a :: a in s' ==> s'[a] == s[a]
  }

  /** s' is s after a sweep that could not read the claims of unread, and so passed them over as
      it passes over claims already gone. */
  ghost predicate SweepPast(s: Store, s': Store, unread: set<Id>, heads: set<Id>, now: int) {
    && (forall a :: a in s' <==> a in s && !Swept(s - unread, heads, now, a))
    && forall a :: a in s' ==> s'[a] == s[a]
  }

  /** s' is s after that sweep or some part of it. */
  ghost predicate PartOf(s: Store, s': Store, heads: set<Id>, now: int) {
    && (forall a :: a in s' ==> a in s && s'[a] == s[a])
    && forall a :: a in s && a !in s' ==> Swept(s, heads, now, a)
  }

  lemma NextDue(s: Store, now: int, due: set<Id>, seen: set<Id>, a: Id)
    requires forall x :: x in due <==> x in seen && Due(s, x, now)
    ensures forall x :: x in due + {a} <==> x in seen + {a} && (x == a || Due(s, x, now))
    ensures !Due(s, a, now) ==> forall x :: x in due <==> x in seen + {a} && Due(s, x, now)
  {
  }

  /** The walk of DeletePlanned over s, the claims it gets to read: others are passed over, and a
      date on a claim that may not carry one stops the sweep before anything is removed. */
  method CollectDue(s: Store, heads: seq<Option<Id>>, now: int) returns (due: Option<set<Id>>)
    ensures due.Some? ==> forall a :: a in due.value <==> Swept(s, Membership.Named(heads), now, a)
    ensures due.Some? ==> forall a :: a in due.value ==> a in s && !Undeletable(s[a].kind)
  {
    ghost var g, roots := Delta(s), Membership.Named(heads);
    var queue: seq<Id> := [];
    for i := 0 to |heads|
      invariant forall a :: a in queue <==> a in Membership.Named(heads[..i])
    {
      Membership.Heads(heads, queue, i);
      if heads[i].Some? {
        queue := queue + [heads[i].value];
      }
    }
    assert heads[..|heads|] == heads;
    var seen, out: set<Id> := {}, {};
    WorklistStart(g, roots, queue);
    while queue != []
      invariant Worklist(g, roots, seen, queue)
      invariant forall a :: a in out <==> a in seen && Due(s, a, now)
      invariant forall a :: a in out ==> a in s && !Undeletable(s[a].kind)
      decreases Mentioned(g, roots) - seen, |queue|
    {
      var cur := queue[0];
      assert Waiting(seen, queue, cur);
      if cur in seen {
        WorklistSkip(g, roots, seen, queue);
        queue := queue[1..];
        continue;
      }
      InMentioned(g, roots, cur);
      NextDue(s, now, out, seen, cur);
      var refs := if cur in s then References(s[cur].edges) else [];
      WorklistExpand(g, roots, seen, queue, refs);
      seen, queue := seen + {cur}, queue[1..] + refs;
      if cur in s && s[cur].deleteBy.Some? {
        if Undeletable(s[cur].kind) {
          return None;
        }
        if s[cur].deleteBy.value <= now {
          out := out + {cur};
        }
      }
    }
    WorklistDone(g, roots, seen);
    due := Some(out);
  }

  lemma SubReach(s: Store, s': Store, a: Id, b: Id)
    requires (forall x :: x in s' ==> x in s && s'[x] == s[x]) && Reach(Delta(s'), a, b)
    ensures Reach(Delta(s), a, b)
  {
    var n: nat :| ReachIn(Delta(s'), a, b, n);
    ExtendWalk(Delta(s'), Delta(s), a, b, n);
  }

  /** A sweep removes no more for what it could not read. */
  lemma ReadSweeps(s: Store, unread: set<Id>, heads: set<Id>, now: int, a: Id)
    requires Swept(s - unread, heads, now, a)
    ensures Swept(s, heads, now, a)
  {
    var h :| h in heads && Reach(Delta(s - unread), h, a);
    SubReach(s, s - unread, h, a);
  }

  class Vault {
    var store: Store

    constructor (store: Store)
      ensures this.store == store
    {
      this.store := store;
    }

    /** DeletePlanned, where the reads of the claims of unread fail. The ids stay behind as gaps:
        what references them is untouched. A failure may come after claims were removed: a
        removal may land in part, and the blobs of a removed claim go after it. */
    method DeletePlanned(heads: seq<Option<Id>>, now: int, unread: set<Id>) returns (ok: bool)
      modifies this
      ensures ok ==> SweepPast(old(store), store, unread, Membership.Named(heads), now)
      ensures PartOf(old(store), store, Membership.Named(heads), now)
      ensures forall a :: a in old(store) && Undeletable(old(store)[a].kind) ==> a in store
    {
      var due := CollectDue(store - unread, heads, now);
      if due.None? {
        return false;
      }
      forall a | a in due.value ensures Swept(store, Membership.Named(heads), now, a) {
        ReadSweeps(store, unread, Membership.Named(heads), now, a);
      }
      ok := DeleteClaims(due.value);
      if ok {
        ok := *;
      }
    }

    method DeleteClaims(ids: set<Id>) returns (ok: bool)
      modifies this
      ensures exists gone :: gone <= ids && (ok ==> gone == ids) && store == old(store) - gone
    {
      var whole: bool := *;
      var gone: set<Id> := ids;
      if !whole {
        gone :| gone <= ids;
      }
      ok := whole;
      store := store - gone;
    }
  }

  /** s' is s after some sweep: dated claims are missing, and nothing else. */
  predicate SweptTo(s: Store, s': Store) {
    && (forall a :: a in s' ==> a in s && s'[a] == s[a])
    && (forall a :: a in s && s[a].deleteBy.None? ==> a in s')
  }

  /** No sweep, at whatever time and however many, cuts a path of undated claims. */
  lemma LiveSurvives(s: Store, s': Store, h: Id, c: Id)
    requires SweptTo(s, s') && LiveReach(s, h, c)
    ensures LiveReach(s', h, c) && Reach(Delta(s'), h, c)
  {
    var n: nat :| ReachIn(Live(s), h, c, n);
    ExtendWalk(Live(s), Live(s'), h, c, n);
    forall x, y | Step(Live(s'), x, y) ensures Reach(Delta(s'), x, y) {
      ReachStep(Delta(s'), x, y);
    }
    Simulated(Delta(s'), Live(s'), h, c, n);
  }

  lemma PartIsSwept(s: Store, s': Store, heads: set<Id>, now: int)
    requires PartOf(s, s', heads, now)
    ensures SweptTo(s, s')
  {
  }

  /** Some walk from the heads to a comes by an id of unread. */
  ghost predicate Past(g: Graph, heads: set<Id>, unread: set<Id>, a: Id) {
    exists d :: d in unread && Reaches(g, heads, d) && Reach(g, d, a)
  }

  /** A walk that comes by no id of unread is one of the claims read. */
  lemma {:induction false} ReadWalk(s: Store, unread: set<Id>, heads: set<Id>, x: Id, a: Id, n: nat)
    requires Reaches(Delta(s), heads, x) && ReachIn(Delta(s), x, a, n) && !Past(Delta(s), heads, unread, a)
    ensures ReachIn(Delta(s - unread), x, a, n) && a !in unread
    decreases n
  {
    ReachRefl(Delta(s), a);
    assert Reach(Delta(s), x, a);
    if n == 0 {
      assert x == a;
    } else {
      var y :| Step(Delta(s), x, y) && ReachIn(Delta(s), y, a, n - 1);
      ReachStep(Delta(s), x, y);
      ReachesTrans(Delta(s), heads, x, y);
      ReadWalk(s, unread, heads, y, a, n - 1);
      assert Step(Delta(s - unread), x, y);
    }
  }

  /** After a sweep, a second one at the same time removes exactly what is due past a claim the
      first one could not read: nothing where it read all it came to. */
  lemma SecondSweepRemoves(s: Store, s': Store, unread: set<Id>, heads: set<Id>, now: int, a: Id)
    requires SweepPast(s, s', unread, heads, now)
    ensures Swept(s', heads, now, a) <==> Due(s', a, now) && Past(Delta(s'), heads, unread, a)
  {
    if Past(Delta(s'), heads, unread, a) {
      var d :| d in unread && Reaches(Delta(s'), heads, d) && Reach(Delta(s'), d, a);
      ReachesTrans(Delta(s'), heads, d, a);
    } else if Swept(s', heads, now, a) {
      var h :| h in heads && Reach(Delta(s'), h, a);
      var n: nat :| ReachIn(Delta(s'), h, a, n);
      ReachRefl(Delta(s'), h);
      ReadWalk(s', unread, heads, h, a, n);
      ExtendWalk(Delta(s' - unread), Delta(s - unread), h, a, n);
      if Reaches(Delta(s - unread), heads, a) {
        assert false;
      }
    }
  }

  /** So the sweep is not idempotent as it stands: the head 2 leads to the due claim 1, a first
      sweep that cannot read 1 succeeds and leaves it, and a second one removes it. */
  lemma UnreadIsLeft(s: Store, s': Store, now: int)
    requires s.Keys == {0, 1, 2} && Attributed(s, 0) && Refs(Delta(s), 2) == {1, 0} && Refs(Delta(s), 1) == {0}
    requires s[0].deleteBy.None? && s[2].deleteBy.None? && Due(s, 1, now) && SweepPast(s, s', {1}, {2}, now)
    ensures s' == s && Swept(s', {2}, now, 1)
  {
    forall a | a in s ensures a in s' {
      assert a == 1 || !Due(s, a, now);
    }
    ReachStep(Delta(s), 2, 1);
  }

  /** A sweep that can read every claim it comes to misses none. */
  lemma ReadAllSweeps(s: Store, s': Store, unread: set<Id>, heads: set<Id>, now: int)
    requires SweepPast(s, s', unread, heads, now) && forall d :: d in unread ==> !Reaches(Delta(s), heads, d)
    ensures SweepOf(s, s', heads, now)
  {
    forall a ensures Swept(s, heads, now, a) <==> Swept(s - unread, heads, now, a) {
      if Swept(s - unread, heads, now, a) {
        ReadSweeps(s, unread, heads, now, a);
      } else if h :| h in heads && Reach(Delta(s), h, a) {
        var n: nat :| ReachIn(Delta(s), h, a, n);
        ReachRefl(Delta(s), h);
        ReadWalk(s, unread, heads, h, a, n);
        assert Reach(Delta(s - unread), h, a);
      }
    }
  }

  /** And it leaves nothing to a second one. */
  lemma SecondSweepIdle(s: Store, s': Store, heads: set<Id>, now: int, a: Id)
    requires SweepOf(s, s', heads, now)
    ensures !Swept(s', heads, now, a)
  {
    assert s - {} == s;
    SecondSweepRemoves(s, s', {}, heads, now, a);
  }

  /** The graph of the claims not due at now: a walk in it crosses nothing a sweep then removes. */
  function Standing(s: Store, now: int): Graph {
    map a | a in s && !Due(s, a, now) :: Targets(EdgeSet(s[a].edges))
  }

  /** Below the heads two graphs have the same references, all of them of full. */
  ghost predicate AlikeAt(full: Graph, g: Graph, g': Graph, x: Id) {
    Refs(g, x) == Refs(g', x) <= Refs(full, x)
  }

  ghost predicate AlikeBelow(full: Graph, g: Graph, g': Graph, heads: set<Id>) {
    forall x :: Reaches(full, heads, x) ==> AlikeAt(full, g, g', x)
  }

  lemma {:induction false} AlikeWalk(full: Graph, g: Graph, g': Graph, heads: set<Id>, x: Id, a: Id, n: nat)
    requires AlikeBelow(full, g, g', heads) && Reaches(full, heads, x) && ReachIn(g, x, a, n)
    ensures ReachIn(g', x, a, n)
    decreases n
  {
    if n > 0 {
      var y :| Step(g, x, y) && ReachIn(g, y, a, n - 1);
      assert AlikeAt(full, g, g', x);
      ReachStep(full, x, y);
      ReachesTrans(full, heads, x, y);
      AlikeWalk(full, g, g', heads, y, a, n - 1);
      assert Step(g', x, y);
    }
  }

  lemma StandingAlike(s: Store, s': Store, heads: set<Id>, now: int)
    requires SweepOf(s, s', heads, now)
    ensures AlikeBelow(Delta(s), Delta(s'), Standing(s, now), heads)
    ensures AlikeBelow(Delta(s), Standing(s, now), Delta(s'), heads)
  {
    forall x | Reaches(Delta(s), heads, x)
      ensures AlikeAt(Delta(s), Delta(s'), Standing(s, now), x) && AlikeAt(Delta(s), Standing(s, now), Delta(s'), x)
    {
    }
  }

  lemma LeftExactly(s: Store, s': Store, heads: set<Id>, now: int, h: Id, a: Id)
    requires SweepOf(s, s', heads, now) && h in heads
    ensures Reach(Delta(s'), h, a) <==> Reach(Standing(s, now), h, a)
  {
    ReachRefl(Delta(s), h);
    StandingAlike(s, s', heads, now);
    if n: nat :| ReachIn(Delta(s'), h, a, n) {
      AlikeWalk(Delta(s), Delta(s'), Standing(s, now), heads, h, a, n);
    }
    if n: nat :| ReachIn(Standing(s, now), h, a, n) {
      AlikeWalk(Delta(s), Standing(s, now), Delta(s'), heads, h, a, n);
    }
  }

  /** A later sweep removes what has fallen due since exactly where the first one cut no path
      to it. */
  lemma LaterSweepRemoves(s: Store, s': Store, heads: set<Id>, t1: int, t2: int, a: Id)
    requires SweepOf(s, s', heads, t1) && t1 <= t2
    ensures Swept(s', heads, t2, a) <==>
      Due(s, a, t2) && !Due(s, a, t1) && Reaches(Standing(s, t1), heads, a)
  {
    forall h | h in heads ensures Reach(Delta(s'), h, a) <==> Reach(Standing(s, t1), h, a) {
      LeftExactly(s, s', heads, t1, h, a);
    }
    if Swept(s', heads, t2, a) && Due(s, a, t1) {
      SecondSweepIdle(s, s', heads, t1, a);
    }
    if Reaches(Standing(s, t1), heads, a) && Swept(s, heads, t1, a) {
      assert Due(s, a, t1);
    }
  }

  /** So a date behind an earlier one may never be met: here the one path to 1 leads over 2, and
      once 2 is gone no sweep from the head 3 reaches 1. All were made by the contributor 0. */
  lemma LaterSweepMisses(s: Store, s': Store, t1: int, t2: int)
    requires s.Keys == {0, 1, 2, 3} && t1 < t2 && SweepOf(s, s', {3}, t1) && Attributed(s, 0)
    requires Refs(Delta(s), 3) == {2, 0} && Refs(Delta(s), 2) == {1, 0} && Refs(Delta(s), 1) == {0}
    requires s[0].deleteBy.None? && s[3].deleteBy.None? && s[2].deleteBy == Some(t1) && s[1].deleteBy == Some(t2)
    ensures 2 !in s' && 1 in s' && Swept(s, {3}, t2, 1) && !Swept(s', {3}, t2, 1)
  {
    ReachStep(Delta(s), 3, 2);
    ReachStep(Delta(s), 2, 1);
    ReachTrans(Delta(s), 3, 2, 1);
    LaterSweepRemoves(s, s', {3}, t1, t2, 1);
    CutAt(Standing(s, t1));
  }

  lemma CutAt(g: Graph)
    requires Refs(g, 0) == Refs(g, 2) == {} && Refs(g, 3) == {0, 2}
    ensures !Reach(g, 3, 1)
  {
    assert Closed(g, {0, 2, 3});
    if Reach(g, 3, 1) {
      ClosedHolds(g, {0, 2, 3}, 3, 1);
    }
  }

  // ---- A contribution's own claims ----

  function IdsOf(digest: Claim -> Id, own: seq<Claim>): set<Id> {
    set c | c in own :: digest(c)
  }

  ghost predicate Stored(s: Store, digest: Claim -> Id, own: seq<Claim>) {
    forall c :: c in own ==> digest(c) in s && s[digest(c)] == c
  }

  lemma StoredMore(s: Store, s': Store, digest: Claim -> Id, own: seq<Claim>, i: nat)
    requires i < |own| && Stored(s, digest, own[..i]) && Grows(s, s') && s' == Put(s, digest, own[i])
    ensures Stored(s', digest, own[..i + 1])
    ensures IdsOf(digest, own[..i + 1]) == IdsOf(digest, own[..i]) + {digest(own[i])}
  {
    assert own[..i + 1] == own[..i] + [own[i]];
  }

  /** The undated claims of own: a path that stays among them no sweep can cut. */
  function OwnLive(s: Store, mine: set<Id>): Graph {
    map a | a in mine && a in s && s[a].deleteBy.None? :: Targets(EdgeSet(s[a].edges))
  }

  lemma OwnLiveReach(s: Store, mine: set<Id>, h: Id, c: Id)
    requires Reach(OwnLive(s, mine), h, c)
    ensures LiveReach(s, h, c)
  {
    var n: nat :| ReachIn(OwnLive(s, mine), h, c, n);
    ExtendWalk(OwnLive(s, mine), Live(s), h, c, n);
  }

  /** An undated claim of own that the walk from the heads finds without crossing a date. */
  ghost predicate Kept(s: Store, mine: set<Id>, heads: set<Id>, a: Id) {
    a in mine && a in s && s[a].deleteBy.None? && Reaches(OwnLive(s, mine), heads, a)
  }

  /** StrandedByDeletion: the undated claims of own no such walk reaches. The search stays
      inside own. */
  method StrandedByDeletion(s: Store, heads: seq<Id>, mine: set<Id>) returns (orphaned: set<Id>)
    requires mine <= s.Keys
    ensures forall a :: a in orphaned <==> a in mine && s[a].deleteBy.None? && !Kept(s, mine, Elements(heads), a)
  {
    ghost var g, roots := OwnLive(s, mine), Elements(heads);
    var reached: set<Id> := {};
    ghost var seen: set<Id> := {};
    var queue := heads;
    WorklistStart(g, roots, queue);
    while queue != []
      invariant Worklist(g, roots, seen, queue)
      invariant forall a :: a in reached <==> a in seen && a in mine && s[a].deleteBy.None?
      decreases mine - reached, |queue|
    {
      var cur := queue[0];
      assert Waiting(seen, queue, cur);
      if cur in reached {
        WorklistSkip(g, roots, seen, queue);
        queue := queue[1..];
        continue;
      }
      if cur !in mine || s[cur].deleteBy.Some? {
        WorklistExpand(g, roots, seen, queue, []);
        assert queue[1..] + [] == queue[1..];
        seen, queue := seen + {cur}, queue[1..];
        continue;
      }
      var refs := References(s[cur].edges);
      WorklistExpand(g, roots, seen, queue, refs);
      seen, reached, queue := seen + {cur}, reached + {cur}, queue[1..] + refs;
    }
    WorklistDone(g, roots, seen);
    orphaned := set a | a in mine && a !in reached && s[a].deleteBy.None?;
  }

  /** The open heads reach everything added. */
  ghost predicate HeadsReach(s: Store, heads: set<Id>, ids: set<Id>) {
    forall a :: a in ids ==> Reaches(Delta(s), heads, a)
  }

  lemma HeadAdded(s: Store, s': Store, heads: set<Id>, ids: set<Id>, id: Id)
    requires Grows(s, s') && Acyclic(s') && id in s' && HeadsReach(s, heads, ids)
    ensures HeadsReach(s', (heads + {id}) - Refs(Delta(s'), id), ids + {id})
    ensures id !in Refs(Delta(s'), id)
  {
    var g, heads' := Delta(s'), (heads + {id}) - Refs(Delta(s'), id);
    GrowsDelta(s, s');
    NoSelfReference(s', id);
    ReachRefl(g, id);
    forall a | a in ids ensures Reaches(g, heads', a) {
      var h :| h in heads && Reach(Delta(s), h, a);
      var n: nat :| ReachIn(Delta(s), h, a, n);
      ExtendWalk(Delta(s), g, h, a, n);
      assert Reach(g, h, a);
      if h in Refs(g, id) {
        ReachStep(g, id, h);
        ReachTrans(g, id, h, a);
      }
    }
  }

  lemma NoSelfReference(s: Store, id: Id)
    requires Acyclic(s) && id in s
    ensures id !in Refs(Delta(s), id)
  {
    forall e | e in s[id].edges ensures e.reference != id {
      assert Rank(s)(e.reference) < Rank(s)(id);
    }
  }

  /** The edge says of its target's date exactly what the target says. */
  predicate CopiesDate(s: Store, e: Edge) {
    e.reference in s && e.deleteBy == s[e.reference].deleteBy
  }

  /** ruleDeleteByCopied, asked of each edge whose target is held. */
  ghost predicate CopiesDates(s: Store, a: Id)
    requires a in s
  {
    forall e :: e in s[a].edges && e.reference in s ==> CopiesDate(s, e)
  }

  /** h is a head minted over the roots: its edges copy the dates their targets carry, and one
      names the contributor. */
  ghost predicate Consolidates(s: Store, s': Store, self: Id, roots: set<Id>, h: Id) {
    && h in s' && s'[h].deleteBy.None? && s'[h].kind == NODE_HEAD
    && roots + {self} <= s.Keys && Targets(EdgeSet(s'[h].edges)) == roots + {self}
    && forall e :: e in s'[h].edges ==>
      e == Edge(self, EDGE_CONTRIBUTOR, None, None) || (e.kind == EDGE_HEAD && CopiesDate(s, e))
  }

  /** Such a head keeps the rule, whatever it cites. */
  lemma ConsolidationCopies(s: Store, s': Store, self: Id, roots: set<Id>, h: Id)
    requires Grows(s, s') && Consolidates(s, s', self, roots, h) && s[self].deleteBy.None?
    ensures CopiesDates(s', h)
  {
  }

  /** What one branch of a contribution still has to be consolidated: its heads so far, and the
      claims cited besides. */
  class OpenGraph {
    const u: Universe
    const self: Id
    const key: Edge -> nat
    var heads: set<Id>
    var cited: set<Id>

    constructor (u: Universe, self: Id, key: Edge -> nat)
      ensures this.u == u && this.self == self && this.key == key && heads == {} && cited == {}
    {
      this.u, this.self, this.key, heads, cited := u, self, key, {}, {};
    }

    ghost predicate Ready(ids: set<Id>)
      reads this, u
    {
      u.Valid() && Acyclic(u.store) && ids <= u.store.Keys && heads <= u.store.Keys && HeadsReach(u.store, heads, ids)
    }

    method AddClaim(c: Claim, ghost ids: set<Id>) returns (ok: bool)
      requires Ready(ids)
      modifies this`heads, u
      ensures u.Valid() && Grows(old(u.store), u.store)
      ensures ok ==> Ready(ids + {u.digest(c)}) && u.store == Put(old(u.store), u.digest, c)
      ensures ok ==> u.digest(c) in heads && heads <= old(heads) + {u.digest(c)}
    {
      ok := u.PutClaim(c);
      if !ok {
        return;
      }
      AddressedAcyclic(u.store, u.digest);
      var id := u.digest(c);
      HeadAdded(old(u.store), u.store, heads, ids, id);
      heads := (heads + {id}) - Elements(References(c.edges));
    }

    /** AddClaims, one after another. */
    method AddClaims(own: seq<Claim>) returns (ok: bool)
      requires Ready({})
      modifies this`heads, u
      ensures u.Valid() && Grows(old(u.store), u.store)
      ensures ok ==> Ready(IdsOf(u.digest, own)) && Stored(u.store, u.digest, own)
      ensures ok ==> heads <= old(heads) + IdsOf(u.digest, own)
    {
      ok := true;
      ghost var ids: set<Id> := {};
      for i := 0 to |own|
        invariant Ready(ids) && ids == IdsOf(u.digest, own[..i]) && Stored(u.store, u.digest, own[..i])
        invariant Grows(old(u.store), u.store) && heads <= old(heads) + ids
      {
        ghost var before := u.store;
        ok := AddClaim(own[i], ids);
        if !ok {
          return;
        }
        StoredMore(before, u.store, u.digest, own, i);
        ids := ids + {u.digest(own[i])};
      }
      assert own[..|own|] == own;
    }

    method Cite(ids: set<Id>)
      modifies this`cited
      ensures cited == old(cited) + ids
    {
      cited := cited + ids;
    }

    /** The claims a head must reach: the open heads and what was cited. */
    function Roots(): set<Id>
      reads this
    {
      heads + cited
    }

    /** Consolidate: the one root itself, or a head minted over them all, dated nowhere. Each
        edge copies the date its target carries. */
    method Consolidate(now: int) returns (r: Option<Id>)
      requires u.Valid() && Acyclic(u.store)
      modifies this`heads, u
      ensures u.Valid() && Grows(old(u.store), u.store)
      ensures r.Some? && |old(Roots())| == 1 ==> old(Roots()) == {r.value} && u.store == old(u.store)
      ensures r.Some? && |old(Roots())| != 1 ==> Consolidates(old(u.store), u.store, self, old(Roots()), r.value)
      ensures r.Some? && |old(Roots())| != 1 && u.store[self].deleteBy.None? ==> CopiesDates(u.store, r.value)
    {
      var roots := heads + cited;
      if roots == {} {
        return None;
      }
      if |roots| == 1 {
        var h :| h in roots;
        assert |roots - {h}| == 0;
        return if h in u.store then Some(h) else None;
      }
      ghost var s := u.store;
      r := MintOver(roots, now);
      if r.Some? && s[self].deleteBy.None? {
        ConsolidationCopies(s, u.store, self, roots, r.value);
      }
    }

    method MintOver(roots: set<Id>, now: int) returns (r: Option<Id>)
      requires u.Valid() && Acyclic(u.store)
      modifies this`heads, u
      ensures u.Valid() && Grows(old(u.store), u.store)
      ensures r.Some? ==> Consolidates(old(u.store), u.store, self, roots, r.value)
    {
      if !(roots + {self} <= u.store.Keys) {
        return None;
      }
      var edges := HeadEdgesOf(u.store, roots);
      var es := SortEdges(edges + [Edge(self, EDGE_CONTRIBUTOR, None, None)], key);
      WithContributor(es, edges, self);
      SameElements(es, edges + [Edge(self, EDGE_CONTRIBUTOR, None, None)]);
      var c := Claim(NODE_HEAD, es, now, MaxHeight(u.store, roots + {self}) + 1, None, {}, 0);
      var ok := AddHead(c);
      r := if ok then Some(u.digest(c)) else None;
    }

    method AddHead(c: Claim) returns (ok: bool)
      requires u.Valid()
      modifies this`heads, u
      ensures u.Valid() && Grows(old(u.store), u.store)
      ensures ok ==> u.store == Put(old(u.store), u.digest, c)
    {
      ok := u.PutClaim(c);
      if ok {
        heads := (heads + {u.digest(c)}) - Elements(References(c.edges));
      }
    }

    /** Steps 2 to 4 for one branch: add, cite what a deletion would strand, consolidate. Every
        undated claim of the contribution is then reached from the head through undated claims,
        so no planned sweep, now or later, puts it out of reach. */
    method Complete(own: seq<Claim>, now: int) returns (head: Option<Id>)
      requires Ready({}) && heads == {} && cited == {}
      modifies this, u
      ensures u.Valid() && Grows(old(u.store), u.store)
      ensures head.Some? ==> forall c :: c in own && c.deleteBy.None? ==> LiveReach(u.store, head.value, u.digest(c))
    {
      var ok := AddClaims(own);
      if !ok {
        return None;
      }
      ghost var s := u.store;
      var list := Listing(heads);
      var stranded := StrandedByDeletion(u.store, list, IdsOf(u.digest, own));
      Cite(stranded);
      assert Elements(list) == heads;
      ghost var roots := Roots();
      head := Consolidate(now);
      if head.Some? {
        AllKept(s, u.store, u.digest, own, list, stranded, roots, self, head.value);
      }
    }
  }

  method Listing(ids: set<Id>) returns (list: seq<Id>)
    ensures Elements(list) == ids
  {
    list := [];
    var left := ids;
    while left != {}
      invariant left <= ids && Elements(list) == ids - left
      decreases left
    {
      var a :| a in left;
      assert Elements(list + [a]) == Elements(list) + {a};
      left := left - {a};
      list := list + [a];
    }
  }

  method HeadEdgesOf(s: Store, roots: set<Id>) returns (edges: seq<Edge>)
    requires roots <= s.Keys
    ensures Targets(EdgeSet(edges)) == roots
    ensures forall e :: e in edges ==> e.kind == EDGE_HEAD && CopiesDate(s, e)
  {
    edges := [];
    var left := roots;
    while left != {}
      invariant left <= roots && Targets(EdgeSet(edges)) == roots - left
      invariant forall e :: e in edges ==> e.kind == EDGE_HEAD && CopiesDate(s, e)
      decreases left
    {
      var a :| a in left;
      left := left - {a};
      OneMore(edges, Edge(a, EDGE_HEAD, None, s[a].deleteBy));
      edges := edges + [Edge(a, EDGE_HEAD, None, s[a].deleteBy)];
    }
  }

  /** Every undated claim of the contribution lies below the head along undated claims. */
  lemma RootsKeep(
    s: Store, s': Store, mine: set<Id>, list: seq<Id>, stranded: set<Id>, roots: set<Id>, self: Id, head: Id, a: Id)
    requires Grows(s, s') && mine <= s.Keys && a in mine && s[a].deleteBy.None?
    requires forall x :: x in stranded <==> x in mine && s[x].deleteBy.None? && !Kept(s, mine, Elements(list), x)
    requires roots == Elements(list) + stranded
    requires |roots| == 1 ==> roots == {head}
    requires |roots| != 1 ==> head in s' && s'[head].deleteBy.None? && Refs(Delta(s'), head) == roots + {self}
    ensures LiveReach(s', head, a)
  {
    var r := RootOf(s, mine, list, stranded, a);
    LiveGrows(s, s', r, a);
    if |roots| == 1 {
      assert r in roots;
    } else {
      assert Step(Live(s'), head, r);
      ReachStep(Live(s'), head, r);
      ReachTrans(Live(s'), head, r, a);
    }
  }

  lemma AllKept(
    s: Store, s': Store, digest: Claim -> Id, own: seq<Claim>, list: seq<Id>, stranded: set<Id>, roots: set<Id>,
    self: Id, head: Id)
    requires Grows(s, s') && Stored(s, digest, own)
    requires forall x :: x in stranded <==>
      x in IdsOf(digest, own) && x in s && s[x].deleteBy.None? && !Kept(s, IdsOf(digest, own), Elements(list), x)
    requires roots == Elements(list) + stranded
    requires |roots| == 1 ==> roots == {head}
    requires |roots| != 1 ==> head in s' && s'[head].deleteBy.None? && Refs(Delta(s'), head) == roots + {self}
    ensures forall c :: c in own && c.deleteBy.None? ==> LiveReach(s', head, digest(c))
  {
    forall c | c in own && c.deleteBy.None? ensures LiveReach(s', head, digest(c)) {
      RootsKeep(s, s', IdsOf(digest, own), list, stranded, roots, self, head, digest(c));
    }
  }

  lemma RootOf(s: Store, mine: set<Id>, list: seq<Id>, stranded: set<Id>, a: Id) returns (r: Id)
    requires mine <= s.Keys && a in mine && s[a].deleteBy.None?
    requires forall x :: x in stranded <==> x in mine && s[x].deleteBy.None? && !Kept(s, mine, Elements(list), x)
    ensures r in Elements(list) + stranded && LiveReach(s, r, a)
  {
    if a in stranded {
      r := a;
      ReachRefl(Live(s), a);
    } else {
      r :| r in Elements(list) && Reach(OwnLive(s, mine), r, a);
      OwnLiveReach(s, mine, r, a);
    }
  }

  lemma LiveGrows(s: Store, s': Store, h: Id, c: Id)
    requires Grows(s, s') && LiveReach(s, h, c)
    ensures LiveReach(s', h, c)
  {
    var n: nat :| ReachIn(Live(s), h, c, n);
    ExtendWalk(Live(s), Live(s'), h, c, n);
  }

  /** What may happen to a store later: claims are added, or a planned sweep runs, whole or in
      part, from whatever heads and at whatever time. */
  ghost predicate Later(s: Store, s': Store) {
    Grows(s, s') || exists heads, now :: PartOf(s, s', heads, now)
  }

  ghost predicate History(run: seq<Store>) {
    run != [] && forall i :: 0 <= i < |run| - 1 ==> Later(run[i], run[i + 1])
  }

  /** An undated claim is never removed, and paths of undated claims are never cut. */
  lemma {:induction false} LiveStays(run: seq<Store>, i: nat, h: Id, c: Id)
    requires History(run) && i < |run| && LiveReach(run[0], h, c)
    requires c in run[0] && run[0][c].deleteBy.None?
    ensures LiveReach(run[i], h, c) && c in run[i] && run[i][c] == run[0][c]
  {
    if i > 0 {
      LiveStays(run, i - 1, h, c);
      assert Later(run[i - 1], run[i - 1 + 1]);
      if Grows(run[i - 1], run[i]) {
        LiveGrows(run[i - 1], run[i], h, c);
      } else {
        var heads, now :| PartOf(run[i - 1], run[i], heads, now);
        PartIsSwept(run[i - 1], run[i], heads, now);
        LiveSurvives(run[i - 1], run[i], h, c);
      }
    }
  }

  /** Whatever is added and swept later, the whole of a contribution stays held and reachable
      from its head, but for what carries a date itself. */
  lemma NoSurvivorStranded(run: seq<Store>, i: nat, head: Id, own: seq<Claim>, digest: Claim -> Id)
    requires History(run) && i < |run| && Stored(run[0], digest, own)
    requires forall c :: c in own && c.deleteBy.None? ==> LiveReach(run[0], head, digest(c))
    ensures forall c :: c in own && c.deleteBy.None? ==>
      digest(c) in run[i] && run[i][digest(c)] == c && Reach(Delta(run[i]), head, digest(c))
  {
    forall c | c in own && c.deleteBy.None?
      ensures digest(c) in run[i] && run[i][digest(c)] == c && Reach(Delta(run[i]), head, digest(c))
    {
      LiveStays(run, i, head, digest(c));
      LiveIsDelta(run[i], head, digest(c));
    }
  }

  // ---- The branch as a whole ----

  lemma LiveIsDelta(s: Store, h: Id, c: Id)
    requires LiveReach(s, h, c)
    ensures Reach(Delta(s), h, c)
  {
    LiveSurvives(s, s, h, c);
  }

  /** No removal of dated claims cuts c off from h. */
  ghost predicate NeverCut(s: Store, h: Id, c: Id) {
    forall s' :: SweptTo(s, s') ==> Reach(Delta(s'), h, c)
  }

  /** Exactly the paths of undated claims can be relied on. */
  lemma NeverCutExactly(s: Store, h: Id, c: Id)
    ensures NeverCut(s, h, c) <==> LiveReach(s, h, c)
  {
    if LiveReach(s, h, c) {
      forall s' | SweptTo(s, s') ensures Reach(Delta(s'), h, c) {
        LiveSurvives(s, s', h, c);
      }
    }
    if NeverCut(s, h, c) {
      var bare := map a | a in s && s[a].deleteBy.None? :: s[a];
      assert SweptTo(s, bare);
      assert Delta(bare) == Live(s);
    }
  }

  lemma {:induction false} LastDate(s: Store) returns (t: int)
    ensures forall a :: a in s && s[a].deleteBy.Some? ==> s[a].deleteBy.value <= t
    decreases |s|
  {
    if a :| a in s {
      t := LastDate(s - {a});
      if s[a].deleteBy.Some? && s[a].deleteBy.value > t {
        t := s[a].deleteBy.value;
      }
      assert forall b :: b in s && b != a ==> b in s - {a} && (s - {a})[b] == s[b];
    } else {
      t := 0;
    }
  }

  /** Where there is none, one planned sweep from the head does cut it, run late enough. */
  lemma OneSweepCuts(s: Store, heads: set<Id>, h: Id, c: Id) returns (t: int)
    requires h in heads && !LiveReach(s, h, c)
    ensures forall s' :: SweepOf(s, s', heads, t) ==> !Reach(Delta(s'), h, c)
  {
    t := LastDate(s);
    assert Standing(s, t) == Live(s);
    forall s' | SweepOf(s, s', heads, t) ensures !Reach(Delta(s'), h, c) {
      LeftExactly(s, s', heads, t, h, c);
    }
  }

  /** What a folded head references: the roots of the fold, and the contributor where it was
      minted. */
  function Beneath(roots: set<Id>, self: Id, h: Id): set<Id> {
    if roots == {h} then roots else roots + {self}
  }

  /** A fold keeps a claim for good exactly when it is the new head or some root has a path of
      undated claims to it. Of the prior head that holds when it is a root, and when it was
      left out, only if a root reaches it so: a path over dates is enough to leave it out. */
  lemma FoldKeepsExactly(s: Store, self: Id, prior: Option<Id>, contributed: set<Id>, roots: set<Id>, h: Id, c: Id)
    requires FoldsTo(Delta(s), prior, contributed, roots) && Heads(s, self, roots, h)
    requires roots != {h} ==> s[h].deleteBy.None?
    ensures NeverCut(s, h, c) <==> c == h || Reaches(Live(s), Beneath(roots, self, h), c)
    ensures prior.Some? && c == prior.value && prior.value in roots ==> NeverCut(s, h, c)
  {
    NeverCutExactly(s, h, c);
    ReachRefl(Live(s), c);
    if roots != {h} {
      assert Refs(Live(s), h) == roots + {self};
      ClosureOfNode(Live(s), h);
    }
  }

  /** A dated head: the one root of a fold, reaching the prior head. It keeps nothing for good. */
  lemma DatedHeadCutsBranch(s: Store, h: Id, c: Id)
    requires h in s && s[h].deleteBy.Some? && c != h
    ensures !NeverCut(s, h, c)
  {
    NeverCutExactly(s, h, c);
    assert Closed(Live(s), {h});
    if LiveReach(s, h, c) {
      ClosedHolds(Live(s), {h}, h, c);
    }
  }

  /** Nor need the head carry a date: 3 reaches the prior head 1 over the dated 2, and so the
      fold leaves 1 out. All were made by the contributor 0. */
  lemma DatedPathCutsBranch(s: Store)
    requires s.Keys == {0, 1, 2, 3} && Attributed(s, 0)
    requires Refs(Delta(s), 3) == {2, 0} && Refs(Delta(s), 2) == {1, 0} && Refs(Delta(s), 1) == {0}
    requires s[0].deleteBy.None? && s[1].deleteBy.None? && s[2].deleteBy.Some? && s[3].deleteBy.None?
    ensures FoldsTo(Delta(s), Some(1), {3}, {3}) && Heads(s, 0, {3}, 3) && !NeverCut(s, 3, 1)
  {
    ReachStep(Delta(s), 3, 2);
    ReachStep(Delta(s), 2, 1);
    ReachTrans(Delta(s), 3, 2, 1);
    NeverCutExactly(s, 3, 1);
    CutAt(Live(s));
  }

  /** A claim whose edges carry no date keeps that rule exactly where nothing they reference
      carries one. */
  lemma UndatedEdgesCopy(s: Store, a: Id)
    requires a in s && Undated(s[a].edges)
    ensures CopiesDates(s, a) <==> forall b :: b in Targets(EdgeSet(s[a].edges)) && b in s ==> s[b].deleteBy.None?
  {
    assert forall e :: e in s[a].edges ==> e.reference in Targets(EdgeSet(s[a].edges));
  }

  lemma TableUndated(es: seq<Edge>, prev: Option<Id>, self: Id, changed: map<string, Id>)
    requires EdgeSet(es) == TableEdges(prev, self, changed)
    ensures Undated(es)
  {
    forall e | e in es ensures e.deleteBy.None? {
      assert e in EdgeSet(es);
    }
  }

  lemma TableTargets(prev: Option<Id>, self: Id, changed: map<string, Id>)
    ensures Targets(TableEdges(prev, self, changed)) == changed.Values + {self} + Optional(prev)
  {
    forall b | b in changed ensures changed[b] in Targets(TableEdges(prev, self, changed)) {
      assert Edge(changed[b], EDGE_BRANCH, Some(b), None) in TableEdges(prev, self, changed);
    }
    assert Edge(self, EDGE_CONTRIBUTOR, None, None) in TableEdges(prev, self, changed);
    assert prev.Some? ==> Edge(prev.value, EDGE_DIFF, None, None) in TableEdges(prev, self, changed);
  }

  /** The Sequencer's own tables and folded heads copy no date. A table keeps the rule exactly
      where no head it restates carries one. */
  lemma TableCopiesExactly(s: Store, t: Id, prev: Option<Id>, self: Id, changed: map<string, Id>)
    requires t in s && IsTable(s[t], prev, self, changed) && changed.Values <= s.Keys
    requires self in s && s[self].deleteBy.None? && (prev.Some? ==> prev.value in s && s[prev.value].deleteBy.None?)
    ensures CopiesDates(s, t) <==> forall b :: b in changed ==> s[changed[b]].deleteBy.None?
  {
    TableUndated(s[t].edges, prev, self, changed);
    UndatedEdgesCopy(s, t);
    TableTargets(prev, self, changed);
  }

  /** And a folded head exactly where no root of its fold does. */
  lemma FoldCopiesExactly(s: Store, self: Id, roots: set<Id>, h: Id)
    requires h in s && Refs(Delta(s), h) == roots + {self} && roots <= s.Keys && Undated(s[h].edges)
    requires self in s && s[self].deleteBy.None?
    ensures CopiesDates(s, h) <==> forall r :: r in roots ==> s[r].deleteBy.None?
  {
    UndatedEdgesCopy(s, h);
  }
}
