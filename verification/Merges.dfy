/** Every interleaving of callers merging into one Sequencer (concurrent.go): contributions
    queue, one caller at a time holds the sequencing thread and commits the whole queue as a
    group, any operation may fail, and the process may stop and reopen at any point. */
module Merges {
  import opened Graphs
  import opened Claims
  import opened Options
  import opened Folds
  import opened Sequencers
  import opened Minting
  import Bookmarks
  import Diffs
  import Membership

  type Caller = nat

  datatype Outcome = Committed(head: Id) | Refused

  // A call waits for the thread, holds it, has left drain, or has returned to its caller.
  datatype Spot = Queued | Holding | Leaving | Returned

  // A call of Merge with its contribution, where it stands, and what it was told.
  datatype Call = Call(p: Pending, spot: Spot, outcome: Option<Outcome>)

  datatype Ticket = Ticket(caller: Caller, p: Pending)

  datatype Phase =
    | Free
    | Folding(caller: Caller, batch: seq<Ticket>, todo: set<string>, newHeads: map<string, Id>)
    | Tabled(caller: Caller, batch: seq<Ticket>, newHeads: map<string, Id>, table: Id)
    | Marked(caller: Caller, batch: seq<Ticket>, newHeads: map<string, Id>, table: Id, index: int)
    | Settling(caller: Caller, batch: seq<Ticket>, outcome: Outcome)

  /** `extra` stands for the record rules, which a claim the Sequencer signs keeps. */
  datatype World = World(digest: Claim -> Id, self: Id, extra: Claim -> bool)

  /** `store` and `slots` are durable. `top` is the highest bookmark, `at` the index of the
      one the head was read from or written to. `granted` and `lapsed` record history: the
      receipts handed out, and whether an append went over a bookmark it had not read. */
  datatype State = State(
    store: Store, slots: Bookmarks.Slots, top: int,
    now: int, head: Id, heads: map<string, Id>, committed: set<Id>, wrote: bool, at: int,
    calls: map<Caller, Call>, queue: seq<Ticket>, phase: Phase,
    granted: set<(Id, Pending)>, lapsed: bool)

  // An append may succeed, fail, or fail although its record landed.
  datatype Write = Done | Lost | Hidden

  datatype Action =
    | Tick(t: int)
    | Stage(c: Claim)
    | Enqueue(caller: Caller, p: Pending)
    | Acquire(caller: Caller)
    | Keep(b: string)
    | Take(b: string, h: Id)
    | Join(b: string, roots: set<Id>, c: Claim)
    | NoAdvance
    | MintTable(c: Claim)
    | Append(w: Write)
    | Publish
    | Fail
    | Settle
    | Release
    | Return(caller: Caller)
    | Reopen

  // ---- The machine ----

  function Work(batch: seq<Ticket>): (r: seq<Pending>)
    ensures |r| == |batch| && forall i :: 0 <= i < |batch| ==> r[i] == batch[i].p
  {
    seq(|batch|, i requires 0 <= i < |batch| => batch[i].p)
  }

  function Held(phase: Phase): seq<Ticket> {
    if phase.Free? then [] else phase.batch
  }

  /** Every contribution not settled yet. */
  function Owed(s: State): seq<Ticket> {
    Held(s.phase) + s.queue
  }

  function Offers(batch: seq<Ticket>, b: string): set<Id> {
    Membership.Named(Contributed(Work(batch), b))
  }

  /** The branch does not hold all that is contributed to it. */
  ghost predicate News(g: Graph, prior: Option<Id>, contributed: set<Id>) {
    exists h :: h in contributed && !(prior.Some? && Reach(g, prior.value, h))
  }

  /** A writer appends above what it wrote last. One that has not written settles the list. */
  function NextIndex(s: State): int {
    if s.wrote then s.at + 1 else s.top + 1
  }

  ghost predicate Mintable(w: World, s: State, refs: set<Id>, c: Claim) {
    Targets(EdgeSet(c.edges)) == refs && Above(s.store, refs, c.height) && s.now <= c.createdAt && w.extra(c)
  }

  /** A verified root, or the claim a contribution consolidates its verified roots under. */
  ghost predicate Offerable(w: World, s: State, r: Id) {
    exists t :: t <= s.now && OfferableAt(w, s, t, r)
  }

  ghost predicate OfferableAt(w: World, s: State, t: int, r: Id) {
    Verified(s.store, w.extra, t, s.committed, r) || exists refs :: Consolidates(w, s, t, refs, r)
  }

  ghost predicate Consolidates(w: World, s: State, t: int, refs: set<Id>, r: Id) {
    && MintedOver(s.store, w.extra, t, refs, r)
    && forall q :: q in refs ==>
      if q == w.self then q in s.store && s.store[q].createdAt <= t
      else Verified(s.store, w.extra, t, s.committed, q)
  }

  ghost predicate Enabled(w: World, s: State, a: Action) {
    var g := Delta(s.store);
    match a
    case Tick(t) => s.now <= t
    case Stage(_) => true
    case Enqueue(k, p) =>
      && k !in s.calls
      && (forall r :: r in HeadsOf(p) ==> Offerable(w, s, r))
      && (forall id :: id in p.ids ==> Reaches(g, HeadsOf(p), id))
    case Acquire(k) => s.phase.Free? && k in s.calls && s.calls[k].spot.Queued?
    case Keep(b) =>
      && s.phase.Folding? && b in s.phase.todo && b in s.heads
      && forall h :: h in Offers(s.phase.batch, b) ==> Reach(g, s.heads[b], h)
    case Take(b, h) =>
      && s.phase.Folding? && b in s.phase.todo && News(g, Lookup(s.heads, b), Offers(s.phase.batch, b))
      && FoldsTo(g, Lookup(s.heads, b), Offers(s.phase.batch, b), {h})
    case Join(b, roots, c) =>
      && s.phase.Folding? && b in s.phase.todo && News(g, Lookup(s.heads, b), Offers(s.phase.batch, b))
      && FoldsTo(g, Lookup(s.heads, b), Offers(s.phase.batch, b), roots) && |roots| > 1
      && c.kind == NODE_HEAD && Mintable(w, s, roots + {w.self}, c)
    case NoAdvance => s.phase.Folding? && s.phase.todo == {} && s.phase.newHeads == map[]
    case MintTable(c) =>
      && s.phase.Folding? && s.phase.todo == {} && s.phase.newHeads != map[]
      && IsTable(c, Some(s.head), w.self, s.phase.newHeads) && Mintable(w, s, Targets(EdgeSet(c.edges)), c)
    case Append(_) => s.phase.Tabled?
    case Publish => s.phase.Marked?
    case Fail => s.phase.Folding? || s.phase.Tabled?
    case Settle => s.phase.Settling? && s.phase.batch != [] && s.phase.batch[0].caller in s.calls
    case Release => s.phase.Settling? && s.phase.batch == [] && s.phase.caller in s.calls
    case Return(k) => k in s.calls && s.calls[k].spot.Leaving? && s.calls[k].outcome.Some?
    case Reopen => s.top in s.slots && s.slots[s.top].Entry? && IsOpen(s.store, s.slots[s.top].head)
  }

  function At(s: State, k: Caller, spot: Spot): map<Caller, Call>
    requires k in s.calls
  {
    s.calls[k := s.calls[k].(spot := spot)]
  }

  /** The record is in its slot, whatever the writer is told. */
  function Landed(s: State, i: int, t: Id): State {
    s.(slots := s.slots[i := Bookmarks.Entry(t)], top := if s.top < i then i else s.top,
       lapsed := s.lapsed || (!s.wrote && s.at < s.top))
  }

  function Refuses(s: State): State
    requires !s.phase.Free?
  {
    s.(phase := Settling(s.phase.caller, s.phase.batch, Refused))
  }

  function Appended(s: State, wr: Write): State
    requires s.phase.Tabled?
  {
    var ph, i := s.phase, NextIndex(s);
    if wr.Lost? then Refuses(s)
    else if wr.Hidden? then Refuses(Landed(s, i, ph.table))
    else Landed(s, i, ph.table).(wrote := true, phase := Marked(ph.caller, ph.batch, ph.newHeads, ph.table, i))
  }

  /** The first of the batch has been told. */
  function Told(ph: Phase): Phase
    requires ph.Settling? && ph.batch != []
  {
    Settling(ph.caller, ph.batch[1..], ph.outcome)
  }

  /** The receipts handed out once t is told of o. */
  function Grants(granted: set<(Id, Pending)>, o: Outcome, t: Ticket): set<(Id, Pending)> {
    if o.Committed? then granted + {(o.head, t.p)} else granted
  }

  ghost function Apply(w: World, s: State, a: Action): State
    requires Enabled(w, s, a)
  {
    var ph := s.phase;
    match a
    case Tick(t) => s.(now := t)
    case Stage(c) => s.(store := Put(s.store, w.digest, c))
    case Enqueue(k, p) =>
      s.(calls := s.calls[k := Call(p, Queued, None)], queue := s.queue + [Ticket(k, p)])
    case Acquire(k) =>
      if s.queue == [] then s.(calls := At(s, k, Leaving))
      else s.(calls := At(s, k, Holding), queue := [],
              phase := Folding(k, s.queue, Touched(Work(s.queue)), map[]))
    case Keep(b) => s.(phase := ph.(todo := ph.todo - {b}))
    case Take(b, h) => s.(phase := ph.(todo := ph.todo - {b}, newHeads := ph.newHeads[b := h]))
    case Join(b, roots, c) =>
      s.(store := Put(s.store, w.digest, c), now := c.createdAt,
         phase := ph.(todo := ph.todo - {b}, newHeads := ph.newHeads[b := w.digest(c)]))
    case NoAdvance =>
      s.(committed := s.committed + BatchIds(Work(ph.batch)),
         phase := Settling(ph.caller, ph.batch, Committed(s.head)))
    case MintTable(c) =>
      s.(store := Put(s.store, w.digest, c), now := c.createdAt,
         phase := Tabled(ph.caller, ph.batch, ph.newHeads, w.digest(c)))
    case Append(wr) => Appended(s, wr)
    case Publish =>
      s.(heads := s.heads + ph.newHeads, head := ph.table, at := ph.index,
         committed := s.committed + ph.newHeads.Values + {ph.table} + BatchIds(Work(ph.batch)),
         phase := Settling(ph.caller, ph.batch, Committed(ph.table)))
    case Fail => s.(phase := Settling(ph.caller, ph.batch, Refused))
    case Settle =>
      var t := ph.batch[0];
      s.(calls := s.calls[t.caller := s.calls[t.caller].(outcome := Some(ph.outcome))],
         phase := Told(ph),
         granted := Grants(s.granted, ph.outcome, t))
    case Release => s.(calls := At(s, ph.caller, Leaving), phase := Free)
    case Return(k) => s.(calls := At(s, k, Returned))
    case Reopen =>
      var head := s.slots[s.top].head;
      s.(head := head, heads := Branches(s.store, head), committed := {w.self, head},
         wrote := false, at := s.top, calls := map[], queue := [], phase := Free)
  }

  // ---- What every reachable state keeps ----

  /** t is a table over the archive at head, restating branches a batch folded onto heads. */
  ghost predicate Follows(
    w: World, store: Store, now: int, head: Id, heads: map<string, Id>,
    work: seq<Pending>, newHeads: map<string, Id>, t: Id)
  {
    && t in store && IsTable(store[t], Some(head), w.self, newHeads) && Settled(store, w.extra, now, t)
    && newHeads.Keys <= Touched(work)
    && FoldedAll(store, w.self, heads, ByBranch(work), heads + newHeads)
  }

  ghost predicate Successor(w: World, store: Store, now: int, head: Id, heads: map<string, Id>, t: Id) {
    exists work, newHeads :: Follows(w, store, now, head, heads, work, newHeads, t)
  }

  /** The head is bookmarked, and memory stands as its table records. */
  ghost predicate Anchored(w: World, store: Store, slots: Bookmarks.Slots, top: int, at: int, head: Id,
      heads: map<string, Id>) {
    && Addresses(w.digest) && ContentAddressed(store, w.digest)
    && Bookmarks.Spans(slots, 0, top) && 0 <= at <= top && Bookmarks.HeadAt(slots, at) == Some(head)
    && IsOpen(store, head) && Branches(store, head) == heads && TabularAt(store, head)
  }

  /** What adopt reads off the table at k is its branches. */
  ghost predicate TabularAt(store: Store, k: Id)
    requires IsOpen(store, k)
  {
    Tabular(Diffs.Materialized(store, k).value)
  }

  /** Above the head lies only what an append left behind: one advance of this very state. */
  ghost predicate StraysOk(w: World, store: Store, slots: Bookmarks.Slots, top: int, at: int, now: int, head: Id,
      heads: map<string, Id>) {
    forall i :: at < i <= top && Bookmarks.Present(slots, i) ==>
      Successor(w, store, now, head, heads, slots[i].head)
  }

  ghost predicate RootsOk(w: World, store: Store, now: int, head: Id, committed: set<Id>) {
    AllSettled(store, w.extra, now, committed + {w.self, head})
  }

  ghost predicate Offered(w: World, store: Store, now: int, p: Pending) {
    && AllSettled(store, w.extra, now, HeadsOf(p))
    && forall id :: id in p.ids ==> Reaches(Delta(store), HeadsOf(p), id)
  }

  ghost predicate OwedOk(w: World, store: Store, now: int, owed: seq<Ticket>) {
    forall t :: t in owed ==> Offered(w, store, now, t.p)
  }

  /** From h a reader reaches every claim of the contribution. */
  ghost predicate Reached(store: Store, h: Id, p: Pending) {
    forall r :: r in HeadsOf(p) || r in p.ids ==> Reach(Delta(store), h, r)
  }

  ghost predicate GrantedOk(store: Store, head: Id, granted: set<(Id, Pending)>) {
    forall r :: r in granted ==> Reach(Delta(store), head, r.0) && Reached(store, r.0, r.1)
  }

  ghost predicate PhaseOk(
    w: World, store: Store, slots: Bookmarks.Slots, top: int, now: int, head: Id, heads: map<string, Id>, phase: Phase)
  {
    match phase
    case Free => true
    case Folding(_, batch, todo, newHeads) =>
      && todo <= Touched(Work(batch)) && newHeads.Keys <= Touched(Work(batch)) - todo
      && AllSettled(store, w.extra, now, newHeads.Values)
      && FoldedAll(store, w.self, heads, ByBranch(Work(batch)) - todo, heads + newHeads)
    case Tabled(_, batch, newHeads, t) =>
      Follows(w, store, now, head, heads, Work(batch), newHeads, t)
    case Marked(_, batch, newHeads, t, i) =>
      && Follows(w, store, now, head, heads, Work(batch), newHeads, t)
      && top == i && Bookmarks.HeadAt(slots, i) == Some(t)
    case Settling(_, batch, outcome) =>
      outcome.Committed? ==> outcome.head == head && forall t :: t in batch ==> Reached(store, head, t.p)
  }

  /** A writer knows its list: at most one failed append lies above what it wrote. */
  predicate WriterOk(wrote: bool, top: int, at: int, phase: Phase) {
    if phase.Marked? then wrote && at < phase.index else wrote ==> top <= at + 1
  }

  /** Each bookmarked table is a diff over the one bookmarked before it. */
  ghost predicate Linked(w: World, store: Store, slots: Bookmarks.Slots, n: int) {
    forall i :: 0 <= i < n && Bookmarks.Present(slots, i) && Bookmarks.Present(slots, i + 1) ==>
      LinkedAt(w, store, slots[i].head, slots[i + 1].head)
  }

  ghost predicate LinkedAt(w: World, store: Store, prev: Id, t: Id) {
    exists changed :: t in store && IsTable(store[t], Some(prev), w.self, changed)
  }

  predicate Owes(owed: seq<Ticket>, k: Caller) {
    exists t :: t in owed && t.caller == k
  }

  /** Each unsettled call is owed one outcome, and nobody else any. */
  ghost predicate OwedOnce(calls: map<Caller, Call>, owed: seq<Ticket>) {
    && (forall i, j :: 0 <= i < j < |owed| ==> owed[i].caller != owed[j].caller)
    && (forall t :: t in owed ==> t.caller in calls && calls[t.caller].p == t.p)
    && (forall k :: k in calls ==> (calls[k].outcome.None? <==> Owes(owed, k)))
  }

  ghost predicate CallsOk(calls: map<Caller, Call>, queue: seq<Ticket>, phase: Phase) {
    && OwedOnce(calls, Held(phase) + queue)
    && (!phase.Free? ==> phase.caller in calls && !Owes(queue, phase.caller))
    && (forall k :: k in calls ==> (calls[k].spot.Holding? <==> !phase.Free? && phase.caller == k))
    && (forall k :: k in calls && (calls[k].spot.Leaving? || calls[k].spot.Returned?) ==> calls[k].outcome.Some?)
  }

  /** A call told of a commit was given a receipt for what it brought. */
  ghost predicate ReceiptsOk(calls: map<Caller, Call>, granted: set<(Id, Pending)>) {
    forall k :: k in calls && calls[k].outcome.Some? && calls[k].outcome.value.Committed? ==>
      (calls[k].outcome.value.head, calls[k].p) in granted
  }

  ghost predicate Inv(w: World, s: State) {
    && Anchored(w, s.store, s.slots, s.top, s.at, s.head, s.heads)
    && StraysOk(w, s.store, s.slots, s.top, s.at, s.now, s.head, s.heads)
    && RootsOk(w, s.store, s.now, s.head, s.committed)
    && OwedOk(w, s.store, s.now, Owed(s))
    && PhaseOk(w, s.store, s.slots, s.top, s.now, s.head, s.heads, s.phase)
    && GrantedOk(s.store, s.head, s.granted)
    && WriterOk(s.wrote, s.top, s.at, s.phase)
    && (!s.lapsed ==> Linked(w, s.store, s.slots, s.top))
    && CallsOk(s.calls, s.queue, s.phase)
    && ReceiptsOk(s.calls, s.granted)
  }

  // ---- Growing the store ----

  lemma ReachGrows(store: Store, store': Store, a: Id, b: Id)
    requires Grows(store, store') && Reach(Delta(store), a, b)
    ensures Reach(Delta(store'), a, b)
  {
    GrowsDelta(store, store');
    var n: nat :| ReachIn(Delta(store), a, b, n);
    ExtendWalk(Delta(store), Delta(store'), a, b, n);
  }

  lemma FollowsGrows(
    w: World, store: Store, store': Store, now: int, now': int, head: Id, heads: map<string, Id>,
    work: seq<Pending>, newHeads: map<string, Id>, t: Id)
    requires Grows(store, store') && now <= now' && Follows(w, store, now, head, heads, work, newHeads, t)
    ensures Follows(w, store', now', head, heads, work, newHeads, t)
  {
    SettledGrows(store, store', w.extra, now, now', t);
    FoldedAllGrows(store, store', w.self, heads, ByBranch(work), heads + newHeads);
  }

  lemma StraysGrow(
    w: World, store: Store, store': Store, slots: Bookmarks.Slots, top: int, at: int, now: int, now': int,
    head: Id, heads: map<string, Id>)
    requires Grows(store, store') && now <= now' && StraysOk(w, store, slots, top, at, now, head, heads)
    ensures StraysOk(w, store', slots, top, at, now', head, heads)
  {
    forall i | at < i <= top && Bookmarks.Present(slots, i)
      ensures Successor(w, store', now', head, heads, slots[i].head)
    {
      var work, newHeads :| Follows(w, store, now, head, heads, work, newHeads, slots[i].head);
      FollowsGrows(w, store, store', now, now', head, heads, work, newHeads, slots[i].head);
    }
  }

  lemma ReachedGrows(store: Store, store': Store, h: Id, p: Pending)
    requires Grows(store, store') && Reached(store, h, p)
    ensures Reached(store', h, p)
  {
    forall r | r in HeadsOf(p) || r in p.ids ensures Reach(Delta(store'), h, r) {
      ReachGrows(store, store', h, r);
    }
  }

  lemma OwedGrows(w: World, store: Store, store': Store, now: int, now': int, owed: seq<Ticket>)
    requires Grows(store, store') && now <= now' && OwedOk(w, store, now, owed)
    ensures OwedOk(w, store', now', owed)
  {
    forall t | t in owed ensures Offered(w, store', now', t.p) {
      AllSettledGrows(store, store', w.extra, now, now', HeadsOf(t.p));
      forall id | id in t.p.ids ensures Reaches(Delta(store'), HeadsOf(t.p), id) {
        var r :| r in HeadsOf(t.p) && Reach(Delta(store), r, id);
        ReachGrows(store, store', r, id);
      }
    }
  }

  lemma PhaseGrows(
    w: World, store: Store, store': Store, slots: Bookmarks.Slots, top: int, now: int, now': int,
    head: Id, heads: map<string, Id>, phase: Phase)
    requires Grows(store, store') && now <= now' && PhaseOk(w, store, slots, top, now, head, heads, phase)
    ensures PhaseOk(w, store', slots, top, now', head, heads, phase)
  {
    match phase
    case Free =>
    case Folding(_, batch, todo, newHeads) =>
      AllSettledGrows(store, store', w.extra, now, now', newHeads.Values);
      FoldedAllGrows(store, store', w.self, heads, ByBranch(Work(batch)) - todo, heads + newHeads);
    case Tabled(_, batch, newHeads, t) =>
      FollowsGrows(w, store, store', now, now', head, heads, Work(batch), newHeads, t);
    case Marked(_, batch, newHeads, t, _) =>
      FollowsGrows(w, store, store', now, now', head, heads, Work(batch), newHeads, t);
    case Settling(_, batch, outcome) =>
      if outcome.Committed? {
        forall t | t in batch ensures Reached(store', head, t.p) {
          ReachedGrows(store, store', head, t.p);
        }
      }
  }

  lemma GrantedGrows(store: Store, store': Store, head: Id, granted: set<(Id, Pending)>)
    requires Grows(store, store') && GrantedOk(store, head, granted)
    ensures GrantedOk(store', head, granted)
  {
    forall r | r in granted ensures Reach(Delta(store'), head, r.0) && Reached(store', r.0, r.1) {
      ReachGrows(store, store', head, r.0);
      ReachedGrows(store, store', r.0, r.1);
    }
  }

  lemma LinkedGrows(w: World, store: Store, store': Store, slots: Bookmarks.Slots, n: int)
    requires Grows(store, store') && Linked(w, store, slots, n)
    ensures Linked(w, store', slots, n)
  {
    forall i | 0 <= i < n && Bookmarks.Present(slots, i) && Bookmarks.Present(slots, i + 1)
      ensures LinkedAt(w, store', slots[i].head, slots[i + 1].head)
    {
      assert LinkedAt(w, store, slots[i].head, slots[i + 1].head);
    }
  }

  lemma AnchoredGrows(
    w: World, store: Store, store': Store, slots: Bookmarks.Slots, top: int, at: int, head: Id, heads: map<string, Id>)
    requires Grows(store, store') && ContentAddressed(store', w.digest)
    requires Anchored(w, store, slots, top, at, head, heads)
    ensures Anchored(w, store', slots, top, at, head, heads)
  {
    AddressedAcyclic(store', w.digest);
    StillPublished(store, store', Some(head), heads);
    MaterializedGrows(store, store', head);
  }

  lemma GrowthKeeps(w: World, s: State, store': Store, now': int)
    requires Inv(w, s) && Grows(s.store, store') && ContentAddressed(store', w.digest) && s.now <= now'
    ensures Inv(w, s.(store := store', now := now'))
  {
    AnchoredGrows(w, s.store, store', s.slots, s.top, s.at, s.head, s.heads);
    StraysGrow(w, s.store, store', s.slots, s.top, s.at, s.now, now', s.head, s.heads);
    AllSettledGrows(s.store, store', w.extra, s.now, now', s.committed + {w.self, s.head});
    OwedGrows(w, s.store, store', s.now, now', Owed(s));
    PhaseGrows(w, s.store, store', s.slots, s.top, s.now, now', s.head, s.heads, s.phase);
    GrantedGrows(s.store, store', s.head, s.granted);
    if !s.lapsed {
      LinkedGrows(w, s.store, store', s.slots, s.top);
    }
  }

  lemma PutKeeps(w: World, s: State, c: Claim, now': int)
    requires Inv(w, s) && s.now <= now'
    ensures Grows(s.store, Put(s.store, w.digest, c))
    ensures Inv(w, s.(store := Put(s.store, w.digest, c), now := now'))
  {
    PutGrows(s.store, w.digest, c);
    GrowthKeeps(w, s, Put(s.store, w.digest, c), now');
  }

  // ---- Callers, the queue and the thread ----

  lemma EnqueueCalls(calls: map<Caller, Call>, queue: seq<Ticket>, phase: Phase, t: Ticket)
    requires CallsOk(calls, queue, phase) && t.caller !in calls
    ensures CallsOk(calls[t.caller := Call(t.p, Queued, None)], queue + [t], phase)
  {
    var owed, owed' := Held(phase) + queue, Held(phase) + (queue + [t]);
    assert owed' == owed + [t];
    forall k ensures Owes(owed', k) <==> Owes(owed, k) || k == t.caller {
      OwesOneMore(owed, t, k);
    }
    forall k ensures Owes(queue + [t], k) <==> Owes(queue, k) || k == t.caller {
      OwesOneMore(queue, t, k);
    }
  }

  lemma OwesOneMore(owed: seq<Ticket>, t: Ticket, k: Caller)
    ensures Owes(owed + [t], k) <==> Owes(owed, k) || k == t.caller
  {
    assert t in owed + [t];
    if Owes(owed, k) {
      var u :| u in owed && u.caller == k;
      assert u in owed + [t];
    }
  }

  lemma EnqueueKeeps(w: World, s: State, k: Caller, p: Pending)
    requires Inv(w, s) && Enabled(w, s, Enqueue(k, p))
    ensures Inv(w, Apply(w, s, Enqueue(k, p)))
  {
    EnqueuedOwed(w, s, k, p);
    EnqueueCalls(s.calls, s.queue, s.phase, Ticket(k, p));
  }

  lemma EnqueuedOwed(w: World, s: State, k: Caller, p: Pending)
    requires RootsOk(w, s.store, s.now, s.head, s.committed) && OwedOk(w, s.store, s.now, Owed(s))
    requires Enabled(w, s, Enqueue(k, p))
    ensures OwedOk(w, s.store, s.now, Held(s.phase) + (s.queue + [Ticket(k, p)]))
  {
    forall r | r in HeadsOf(p) ensures Settled(s.store, w.extra, s.now, r) {
      OfferableSettled(w, s, r);
    }
    assert Held(s.phase) + (s.queue + [Ticket(k, p)]) == Owed(s) + [Ticket(k, p)];
  }

  /** A root that passed step 4 is sound, and so is what consolidates such roots. */
  lemma OfferableSettled(w: World, s: State, r: Id)
    requires RootsOk(w, s.store, s.now, s.head, s.committed) && Offerable(w, s, r)
    ensures Settled(s.store, w.extra, s.now, r)
  {
    var t :| t <= s.now && OfferableAt(w, s, t, r);
    if Verified(s.store, w.extra, t, s.committed, r) {
      VerifiedSettled(s.store, w.extra, s.now, t, s.committed, r);
    } else {
      var refs :| Consolidates(w, s, t, refs, r);
      forall q | q in refs ensures Settled(s.store, w.extra, t, q) {
        if q != w.self {
          VerifiedSettled(s.store, w.extra, s.now, t, s.committed, q);
        }
      }
      MintSettled(s.store, w.extra, t, refs, r);
    }
  }

  /** The thread's holder moves on: only its phase changes. */
  lemma PhaseMoves(w: World, s: State, ph': Phase)
    requires Inv(w, s) && !s.phase.Free? && !ph'.Free?
    requires ph'.caller == s.phase.caller && ph'.batch == s.phase.batch
    requires PhaseOk(w, s.store, s.slots, s.top, s.now, s.head, s.heads, ph') && WriterOk(s.wrote, s.top, s.at, ph')
    ensures Inv(w, s.(phase := ph'))
  {
    SameHolder(s.calls, s.queue, s.phase, ph');
  }

  /** Callers move: what the archive and the memory hold stays. */
  lemma CallersMove(w: World, s: State, calls: map<Caller, Call>, queue: seq<Ticket>, ph: Phase)
    requires Inv(w, s) && OwedOk(w, s.store, s.now, Held(ph) + queue)
    requires PhaseOk(w, s.store, s.slots, s.top, s.now, s.head, s.heads, ph) && WriterOk(s.wrote, s.top, s.at, ph)
    requires CallsOk(calls, queue, ph) && ReceiptsOk(calls, s.granted)
    ensures Inv(w, s.(calls := calls, queue := queue, phase := ph))
  {
  }

  lemma SameReceipts(calls: map<Caller, Call>, granted: set<(Id, Pending)>, k: Caller, spot: Spot)
    requires ReceiptsOk(calls, granted) && k in calls
    ensures ReceiptsOk(calls[k := calls[k].(spot := spot)], granted)
  {
  }

  lemma AcquireKeeps(w: World, s: State, k: Caller)
    requires Inv(w, s) && Enabled(w, s, Acquire(k))
    ensures Inv(w, Apply(w, s, Acquire(k)))
  {
    if s.queue == [] {
      PassKeeps(w, s, k);
    } else {
      HoldKeeps(w, s, k);
    }
  }

  lemma PassKeeps(w: World, s: State, k: Caller)
    requires Inv(w, s) && s.phase.Free? && k in s.calls && s.calls[k].spot.Queued? && s.queue == []
    ensures Inv(w, s.(calls := At(s, k, Leaving)))
  {
    PassCalls(s.calls, k);
    SameReceipts(s.calls, s.granted, k, Leaving);
    CallersMove(w, s, At(s, k, Leaving), s.queue, s.phase);
  }

  lemma HoldKeeps(w: World, s: State, k: Caller)
    requires Inv(w, s) && s.phase.Free? && k in s.calls && s.calls[k].spot.Queued?
    ensures Inv(w, s.(calls := At(s, k, Holding), queue := [],
      phase := Folding(k, s.queue, Touched(Work(s.queue)), map[])))
  {
    var ph := Folding(k, s.queue, Touched(Work(s.queue)), map[]);
    assert Held(s.phase) + s.queue == s.queue == Held(ph) + [];
    AcquireCalls(s.calls, s.queue, k, ph.todo);
    SameReceipts(s.calls, s.granted, k, Holding);
    NothingFolded(w, s.store, s.slots, s.top, s.now, s.head, s.heads, ph);
    CallersMove(w, s, At(s, k, Holding), [], ph);
  }

  /** A caller that finds the queue empty has its outcome. */
  lemma PassCalls(calls: map<Caller, Call>, k: Caller)
    requires CallsOk(calls, [], Free) && k in calls && calls[k].spot.Queued?
    ensures CallsOk(calls[k := calls[k].(spot := Leaving)], [], Free)
  {
    assert Held(Free) + [] == [];
  }

  lemma NothingFolded(
    w: World, store: Store, slots: Bookmarks.Slots, top: int, now: int, head: Id, heads: map<string, Id>, ph: Phase)
    requires ph.Folding? && ph.todo == Touched(Work(ph.batch)) && ph.newHeads == map[]
    ensures PhaseOk(w, store, slots, top, now, head, heads, ph)
  {
    assert ByBranch(Work(ph.batch)) - ph.todo == map[];
  }

  lemma AcquireCalls(calls: map<Caller, Call>, queue: seq<Ticket>, k: Caller, todo: set<string>)
    requires CallsOk(calls, queue, Free) && k in calls && calls[k].spot.Queued?
    ensures CallsOk(calls[k := calls[k].(spot := Holding)], [], Folding(k, queue, todo, map[]))
  {
    assert Held(Free) + queue == queue && queue + [] == queue;
  }

  lemma ReleaseKeeps(w: World, s: State)
    requires Inv(w, s) && Enabled(w, s, Release)
    ensures Inv(w, Apply(w, s, Release))
  {
    assert Held(s.phase) + s.queue == s.queue == Held(Free) + s.queue;
    ReleaseCalls(s.calls, s.queue, s.phase);
    SameReceipts(s.calls, s.granted, s.phase.caller, Leaving);
    CallersMove(w, s, At(s, s.phase.caller, Leaving), s.queue, Free);
  }

  lemma ReleaseCalls(calls: map<Caller, Call>, queue: seq<Ticket>, ph: Phase)
    requires CallsOk(calls, queue, ph) && ph.Settling? && ph.batch == [] && ph.caller in calls
    ensures CallsOk(calls[ph.caller := calls[ph.caller].(spot := Leaving)], queue, Free)
  {
    assert Held(ph) + queue == queue && Held(Free) + queue == queue;
  }

  lemma SettleCalls(calls: map<Caller, Call>, queue: seq<Ticket>, ph: Phase, o: Outcome)
    requires CallsOk(calls, queue, ph) && ph.Settling? && ph.batch != [] && ph.batch[0].caller in calls
    ensures CallsOk(calls[ph.batch[0].caller := calls[ph.batch[0].caller].(outcome := Some(o))], queue, Told(ph))
  {
    assert Held(ph) + queue == [ph.batch[0]] + (ph.batch[1..] + queue);
    SettleOwed(calls, Held(ph) + queue, ph.batch[1..] + queue, ph.batch[0], o);
  }

  lemma SettleOwed(calls: map<Caller, Call>, owed: seq<Ticket>, owed': seq<Ticket>, t: Ticket, o: Outcome)
    requires OwedOnce(calls, owed) && owed == [t] + owed' && t.caller in calls
    ensures OwedOnce(calls[t.caller := calls[t.caller].(outcome := Some(o))], owed')
  {
    forall k ensures Owes(owed', k) <==> Owes(owed, k) && k != t.caller {
      OwesOneLess(owed, owed', t, k);
    }
    forall i, j | 0 <= i < j < |owed'| ensures owed'[i].caller != owed'[j].caller {
      assert owed[i + 1] == owed'[i] && owed[j + 1] == owed'[j];
    }
    forall u | u in owed' ensures u in owed {}
  }

  lemma OwesOneLess(owed: seq<Ticket>, owed': seq<Ticket>, t: Ticket, k: Caller)
    requires owed == [t] + owed' && forall i, j :: 0 <= i < j < |owed| ==> owed[i].caller != owed[j].caller
    ensures Owes(owed', k) <==> Owes(owed, k) && k != t.caller
  {
    if j :| 0 <= j < |owed'| && owed'[j].caller == k {
      assert owed[j + 1] == owed'[j] && owed[0] == t;
    }
    if u :| u in owed && u.caller == k && k != t.caller {
      assert u in owed';
    }
  }

  lemma GrantsMove(w: World, s: State, granted: set<(Id, Pending)>)
    requires Inv(w, s) && GrantedOk(s.store, s.head, granted) && s.granted <= granted
    ensures Inv(w, s.(granted := granted))
  {
  }

  lemma SettleReceipts(calls: map<Caller, Call>, granted: set<(Id, Pending)>, t: Ticket, o: Outcome)
    requires ReceiptsOk(calls, granted) && t.caller in calls && calls[t.caller].p == t.p
    requires o.Committed? ==> (o.head, t.p) in granted
    ensures ReceiptsOk(calls[t.caller := calls[t.caller].(outcome := Some(o))], granted)
  {
  }

  lemma PhaseTail(
    w: World, store: Store, slots: Bookmarks.Slots, top: int, now: int, head: Id, heads: map<string, Id>, ph: Phase)
    requires PhaseOk(w, store, slots, top, now, head, heads, ph) && ph.Settling? && ph.batch != []
    ensures PhaseOk(w, store, slots, top, now, head, heads, Told(ph))
  {
  }

  /** The first of the batch is told. */
  lemma TellKeeps(w: World, s: State, t: Ticket, o: Outcome)
    requires Inv(w, s) && s.phase.Settling? && s.phase.batch != []
    requires t == s.phase.batch[0] && o == s.phase.outcome && t.caller in s.calls && s.calls[t.caller].p == t.p
    requires o.Committed? ==> (o.head, t.p) in s.granted
    ensures Inv(w, s.(calls := s.calls[t.caller := s.calls[t.caller].(outcome := Some(o))],
      phase := Told(s.phase)))
  {
    SettleCalls(s.calls, s.queue, s.phase, o);
    SettleReceipts(s.calls, s.granted, t, o);
    OwedTail(w, s.store, s.now, s.phase, s.queue);
    PhaseTail(w, s.store, s.slots, s.top, s.now, s.head, s.heads, s.phase);
    CallersMove(w, s, s.calls[t.caller := s.calls[t.caller].(outcome := Some(o))], s.queue, Told(s.phase));
  }

  lemma SettleKeeps(w: World, s: State)
    requires Inv(w, s) && Enabled(w, s, Settle)
    ensures Inv(w, Apply(w, s, Settle))
  {
    var t := s.phase.batch[0];
    if s.phase.outcome.Committed? {
      GrantedMore(s.store, s.head, s.granted, s.phase.batch);
    }
    assert t in Held(s.phase) + s.queue;
    var s1 := s.(granted := Grants(s.granted, s.phase.outcome, t));
    GrantsMove(w, s, s1.granted);
    TellKeeps(w, s1, t, s.phase.outcome);
  }

  lemma OwedTail(w: World, store: Store, now: int, ph: Phase, queue: seq<Ticket>)
    requires ph.Settling? && ph.batch != [] && OwedOk(w, store, now, Held(ph) + queue)
    ensures OwedOk(w, store, now, Held(Told(ph)) + queue)
  {
    forall t | t in ph.batch[1..] + queue ensures t in ph.batch + queue {}
  }

  lemma GrantedMore(store: Store, head: Id, granted: set<(Id, Pending)>, batch: seq<Ticket>)
    requires GrantedOk(store, head, granted) && batch != [] && forall t :: t in batch ==> Reached(store, head, t.p)
    ensures GrantedOk(store, head, granted + {(head, batch[0].p)})
  {
    assert batch[0] in batch;
    ReachRefl(Delta(store), head);
  }

  lemma SameHolder(calls: map<Caller, Call>, queue: seq<Ticket>, ph: Phase, ph': Phase)
    requires CallsOk(calls, queue, ph) && !ph.Free? && !ph'.Free? && ph'.caller == ph.caller && ph'.batch == ph.batch
    ensures CallsOk(calls, queue, ph')
  {
  }

  // ---- Folding the branches ----

  lemma OffersFrom(batch: seq<Ticket>, b: string, r: Id)
    ensures r in Offers(batch, b) <==> exists t :: t in batch && b in t.p.heads && Some(r) in t.p.heads[b]
  {
    ContributedBy(Work(batch), b, Some(r));
    if p :| p in Work(batch) && b in p.heads && Some(r) in p.heads[b] {
      var i :| 0 <= i < |batch| && Work(batch)[i] == p;
      assert batch[i] in batch;
    }
    if t :| t in batch && b in t.p.heads && Some(r) in t.p.heads[b] {
      var i :| 0 <= i < |batch| && batch[i] == t;
      assert Work(batch)[i] == t.p;
    }
  }

  lemma OffersSettled(w: World, store: Store, now: int, batch: seq<Ticket>, b: string)
    requires OwedOk(w, store, now, batch)
    ensures AllSettled(store, w.extra, now, Offers(batch, b))
  {
    forall r | r in Offers(batch, b) ensures Settled(store, w.extra, now, r) {
      OffersFrom(batch, b, r);
      var t :| t in batch && b in t.p.heads && Some(r) in t.p.heads[b];
      assert r in HeadsOf(t.p);
    }
  }

  /** Whatever a fold stands over is sound: contributed roots, and the branch's own head. */
  lemma FoldRootsSettled(w: World, s: State, b: string, roots: set<Id>)
    requires OwedOk(w, s.store, s.now, Owed(s)) && RootsOk(w, s.store, s.now, s.head, s.committed)
    requires IsOpen(s.store, s.head) && Branches(s.store, s.head) == s.heads && s.phase.Folding?
    requires roots <= Offers(s.phase.batch, b) + Optional(Lookup(s.heads, b))
    ensures AllSettled(s.store, w.extra, s.now, roots)
  {
    forall t | t in s.phase.batch ensures t in Owed(s) {}
    OffersSettled(w, s.store, s.now, s.phase.batch, b);
    if b in s.heads {
      TableReaches(s.store, s.head, b);
      SettledBelow(s.store, w.extra, s.now, s.head, s.heads[b]);
    }
  }

  lemma BranchFolded(w: World, s: State, b: string, f: Fold)
    requires Inv(w, s) && s.phase.Folding? && b in s.phase.todo && !f.Failed?
    requires Folded(s.store, w.self, Lookup(s.heads, b), Offers(s.phase.batch, b), f.head)
    requires f.Kept? ==> b in s.heads && s.heads[b] == f.head
    requires Settled(s.store, w.extra, s.now, f.head)
    ensures Inv(w, s.(phase := s.phase.(todo := s.phase.todo - {b}, newHeads := Record(s.phase.newHeads, b, f))))
  {
    OneMoreFolded(w, s.store, s.slots, s.top, s.now, s.head, s.heads, s.phase, b, f);
    PhaseMoves(w, s, s.phase.(todo := s.phase.todo - {b}, newHeads := Record(s.phase.newHeads, b, f)));
  }

  lemma OneMoreFolded(
    w: World, store: Store, slots: Bookmarks.Slots, top: int, now: int, head: Id, heads: map<string, Id>,
    ph: Phase, b: string, f: Fold)
    requires ph.Folding? && b in ph.todo && !f.Failed?
    requires PhaseOk(w, store, slots, top, now, head, heads, ph)
    requires Folded(store, w.self, Lookup(heads, b), Offers(ph.batch, b), f.head)
    requires f.Kept? ==> b in heads && heads[b] == f.head
    requires Settled(store, w.extra, now, f.head)
    ensures PhaseOk(w, store, slots, top, now, head, heads,
      ph.(todo := ph.todo - {b}, newHeads := Record(ph.newHeads, b, f)))
  {
    FoldedAllNext(store, w.self, heads, ByBranch(Work(ph.batch)), ph.todo, ph.newHeads, b, f);
    assert Record(ph.newHeads, b, f).Values <= ph.newHeads.Values + {f.head};
  }

  lemma KeepKeeps(w: World, s: State, b: string)
    requires Inv(w, s) && Enabled(w, s, Keep(b))
    ensures Inv(w, Apply(w, s, Keep(b)))
  {
    KeptFolds(s.store, w.self, s.heads[b], Offers(s.phase.batch, b));
    FoldRootsSettled(w, s, b, {s.heads[b]});
    BranchFolded(w, s, b, Kept(s.heads[b]));
  }

  lemma TakeKeeps(w: World, s: State, b: string, h: Id)
    requires Inv(w, s) && Enabled(w, s, Take(b, h))
    ensures Inv(w, Apply(w, s, Take(b, h)))
  {
    FoldRootsSettled(w, s, b, {h});
    OneRootFolds(s.store, w.self, Lookup(s.heads, b), Offers(s.phase.batch, b), h);
    BranchFolded(w, s, b, Moved(h));
  }

  lemma OneRootFolds(store: Store, self: Id, prior: Option<Id>, offers: set<Id>, h: Id)
    requires FoldsTo(Delta(store), prior, offers, {h})
    ensures Folded(store, self, prior, offers, h)
  {
    assert Heads(store, self, {h}, h);
  }

  lemma JoinKeeps(w: World, s: State, b: string, roots: set<Id>, c: Claim)
    requires Inv(w, s) && Enabled(w, s, Join(b, roots, c))
    ensures Inv(w, Apply(w, s, Join(b, roots, c)))
  {
    var h := w.digest(c);
    var s1 := s.(store := Put(s.store, w.digest, c), now := c.createdAt);
    PutKeeps(w, s, c, c.createdAt);
    FoldRootsSettled(w, s, b, roots);
    MintedSettled(w, s, roots + {w.self}, c);
    FoldsGrow(s.store, s1.store, Lookup(s.heads, b), Offers(s.phase.batch, b), roots);
    assert Heads(s1.store, w.self, roots, h);
    BranchFolded(w, s1, b, Moved(h));
  }

  lemma MintedSettled(w: World, s: State, refs: set<Id>, c: Claim)
    requires Inv(w, s) && Mintable(w, s, refs, c)
    requires AllSettled(s.store, w.extra, s.now, refs - {w.self})
    ensures Settled(Put(s.store, w.digest, c), w.extra, c.createdAt, w.digest(c))
  {
    var store' := Put(s.store, w.digest, c);
    PutGrows(s.store, w.digest, c);
    AllSettledGrows(s.store, store', w.extra, s.now, c.createdAt, refs);
    var top :| top in refs && s.store[top].height + 1 == c.height;
    assert store'[top].height + 1 == c.height;
    MintSettled(store', w.extra, c.createdAt, refs, w.digest(c));
  }

  lemma MintTableKeeps(w: World, s: State, c: Claim)
    requires Inv(w, s) && Enabled(w, s, MintTable(c))
    ensures Inv(w, Apply(w, s, MintTable(c)))
  {
    var ph := s.phase;
    var s1 := s.(store := Put(s.store, w.digest, c), now := c.createdAt);
    TableSettled(w, s, c);
    PutKeeps(w, s, c, c.createdAt);
    var ph' := Tabled(ph.caller, ph.batch, ph.newHeads, w.digest(c));
    TabledOk(w, s1.store, s1.slots, s1.top, s1.now, s1.head, s1.heads, ph, ph');
    PhaseMoves(w, s1, ph');
  }

  lemma TabledOk(
    w: World, store: Store, slots: Bookmarks.Slots, top: int, now: int, head: Id, heads: map<string, Id>,
    ph: Phase, ph': Phase)
    requires ph.Folding? && ph.todo == {} && PhaseOk(w, store, slots, top, now, head, heads, ph)
    requires ph'.Tabled? && ph'.batch == ph.batch && ph'.newHeads == ph.newHeads
    requires ph'.table in store && IsTable(store[ph'.table], Some(head), w.self, ph.newHeads)
    requires Settled(store, w.extra, now, ph'.table)
    ensures PhaseOk(w, store, slots, top, now, head, heads, ph')
  {
    assert ByBranch(Work(ph.batch)) - ph.todo == ByBranch(Work(ph.batch));
  }

  lemma TableSettled(w: World, s: State, c: Claim)
    requires Inv(w, s) && Enabled(w, s, MintTable(c))
    ensures Settled(Put(s.store, w.digest, c), w.extra, c.createdAt, w.digest(c))
  {
    forall r | r in Targets(EdgeSet(c.edges)) - {w.self} ensures Settled(s.store, w.extra, s.now, r) {
      TableTarget(c, s.head, w.self, s.phase.newHeads, r);
    }
    MintedSettled(w, s, Targets(EdgeSet(c.edges)), c);
  }

  lemma TableTarget(c: Claim, prev: Id, self: Id, changed: map<string, Id>, r: Id)
    requires IsTable(c, Some(prev), self, changed) && r in Targets(EdgeSet(c.edges))
    ensures r == self || r == prev || r in changed.Values
  {
    var e :| e in EdgeSet(c.edges) && e.reference == r;
    if e in BranchEdges(changed) {
      var n :| n in changed && e == Edge(changed[n], EDGE_BRANCH, Some(n), None);
      assert n in changed.Keys;
    }
  }

  // ---- Bookmarking and publishing ----

  lemma FailKeeps(w: World, s: State)
    requires Inv(w, s) && (s.phase.Folding? || s.phase.Tabled?)
    ensures Inv(w, Refuses(s))
  {
    PhaseMoves(w, s, Settling(s.phase.caller, s.phase.batch, Refused));
  }

  lemma NextIndexAbove(s: State)
    requires WriterOk(s.wrote, s.top, s.at, s.phase) && !s.phase.Marked? && s.at <= s.top
    ensures s.at < NextIndex(s) <= s.top + 1
    ensures s.wrote ==> s.top <= NextIndex(s)
    ensures s.wrote || s.at == s.top ==> NextIndex(s) == s.at + 1
    ensures !s.wrote ==> NextIndex(s) == s.top + 1
  {
  }

  /** A write one above the list, or over the one entry above what the writer knows. */
  lemma SlotWritten(slots: Bookmarks.Slots, top: int, i: int, t: Id)
    requires Bookmarks.Spans(slots, 0, top) && 0 <= i && top <= i <= top + 1
    ensures Bookmarks.Spans(slots[i := Bookmarks.Entry(t)], 0, i)
  {
    var slots' := slots[i := Bookmarks.Entry(t)];
    forall k ensures Bookmarks.Present(slots', k) <==> 0 <= k <= i {
      assert k != i ==> (Bookmarks.Present(slots', k) <==> Bookmarks.Present(slots, k));
    }
  }

  lemma StraysWritten(
    w: World, store: Store, slots: Bookmarks.Slots, top: int, at: int, now: int, head: Id, heads: map<string, Id>,
    i: int, t: Id)
    requires StraysOk(w, store, slots, top, at, now, head, heads) && top <= i <= top + 1
    requires Successor(w, store, now, head, heads, t)
    ensures StraysOk(w, store, slots[i := Bookmarks.Entry(t)], i, at, now, head, heads)
  {
    var slots' := slots[i := Bookmarks.Entry(t)];
    forall k | at < k <= i && Bookmarks.Present(slots', k)
      ensures Successor(w, store, now, head, heads, slots'[k].head)
    {
      if k != i {
        assert Bookmarks.Present(slots, k);
      }
    }
  }

  lemma LinkWritten(w: World, store: Store, slots: Bookmarks.Slots, top: int, i: int, t: Id)
    requires Linked(w, store, slots, top) && 0 < i && top <= i <= top + 1
    requires Bookmarks.Present(slots, i - 1) ==> LinkedAt(w, store, slots[i - 1].head, t)
    ensures Linked(w, store, slots[i := Bookmarks.Entry(t)], i)
  {
    var slots' := slots[i := Bookmarks.Entry(t)];
    forall k | 0 <= k < i && Bookmarks.Present(slots', k) && Bookmarks.Present(slots', k + 1)
      ensures LinkedAt(w, store, slots'[k].head, slots'[k + 1].head)
    {
      assert Bookmarks.Present(slots, k);
      if k + 1 != i {
        assert Bookmarks.Present(slots, k + 1);
      }
    }
  }

  /** A table over the head written right above the record of that head. */
  lemma NextLinked(w: World, store: Store, slots: Bookmarks.Slots, top: int, at: int, head: Id, t: Id)
    requires Linked(w, store, slots, top) && 0 <= at <= top <= at + 1
    requires Bookmarks.HeadAt(slots, at) == Some(head) && LinkedAt(w, store, head, t)
    ensures Linked(w, store, slots[at + 1 := Bookmarks.Entry(t)], at + 1)
  {
    LinkWritten(w, store, slots, top, at + 1, t);
  }

  lemma TabledFollows(w: World, s: State)
    requires PhaseOk(w, s.store, s.slots, s.top, s.now, s.head, s.heads, s.phase) && s.phase.Tabled?
    ensures Successor(w, s.store, s.now, s.head, s.heads, s.phase.table)
    ensures LinkedAt(w, s.store, s.head, s.phase.table)
  {
    var ph := s.phase;
    assert Follows(w, s.store, s.now, s.head, s.heads, Work(ph.batch), ph.newHeads, ph.table);
  }

  lemma LandedKeeps(w: World, s: State)
    requires Inv(w, s) && s.phase.Tabled?
    ensures Inv(w, Landed(s, NextIndex(s), s.phase.table))
  {
    NextIndexAbove(s);
    LandedStrays(w, s);
    LandedLinks(w, s);
  }

  lemma LandedStrays(w: World, s: State)
    requires Anchored(w, s.store, s.slots, s.top, s.at, s.head, s.heads) && WriterOk(s.wrote, s.top, s.at, s.phase)
    requires StraysOk(w, s.store, s.slots, s.top, s.at, s.now, s.head, s.heads)
    requires PhaseOk(w, s.store, s.slots, s.top, s.now, s.head, s.heads, s.phase) && s.phase.Tabled?
    ensures var s' := Landed(s, NextIndex(s), s.phase.table);
      && Anchored(w, s.store, s'.slots, s'.top, s.at, s.head, s.heads)
      && StraysOk(w, s.store, s'.slots, s'.top, s.at, s.now, s.head, s.heads)
  {
    NextIndexAbove(s);
    SlotWritten(s.slots, s.top, NextIndex(s), s.phase.table);
    TabledFollows(w, s);
    StraysWritten(w, s.store, s.slots, s.top, s.at, s.now, s.head, s.heads, NextIndex(s), s.phase.table);
  }

  lemma LandedLinks(w: World, s: State)
    requires Anchored(w, s.store, s.slots, s.top, s.at, s.head, s.heads) && WriterOk(s.wrote, s.top, s.at, s.phase)
    requires PhaseOk(w, s.store, s.slots, s.top, s.now, s.head, s.heads, s.phase) && s.phase.Tabled?
    requires !s.lapsed ==> Linked(w, s.store, s.slots, s.top)
    ensures var s' := Landed(s, NextIndex(s), s.phase.table); !s'.lapsed ==> Linked(w, s.store, s'.slots, s'.top)
  {
    NextIndexAbove(s);
    TabledFollows(w, s);
    if !s.lapsed && (s.wrote || s.at == s.top) {
      NextLinked(w, s.store, s.slots, s.top, s.at, s.head, s.phase.table);
    }
  }

  lemma MarkedKeeps(w: World, s: State)
    requires Inv(w, s) && s.phase.Tabled? && s.at < s.top && Bookmarks.HeadAt(s.slots, s.top) == Some(s.phase.table)
    ensures Inv(w, s.(wrote := true,
      phase := Marked(s.phase.caller, s.phase.batch, s.phase.newHeads, s.phase.table, s.top)))
  {
    SameHolder(s.calls, s.queue, s.phase,
      Marked(s.phase.caller, s.phase.batch, s.phase.newHeads, s.phase.table, s.top));
  }

  /** An append touches the list alone, and the phase of the batch. */
  lemma AppendOnly(w: World, s: State, wr: Write)
    requires Enabled(w, s, Append(wr))
    ensures var s' := Apply(w, s, Append(wr));
      && s'.store == s.store && s'.now == s.now && s'.committed == s.committed && s'.granted == s.granted
      && s'.head == s.head && s'.heads == s.heads && s'.calls == s.calls && s'.queue == s.queue
      && (s'.phase.Marked? || s'.phase.Settling?)
      && s'.phase.batch == s.phase.batch && s'.phase.caller == s.phase.caller
  {
  }

  lemma LandedTop(s: State)
    requires WriterOk(s.wrote, s.top, s.at, s.phase) && s.phase.Tabled? && 0 <= s.at <= s.top
    ensures var s' := Landed(s, NextIndex(s), s.phase.table);
      && s.at < s'.top == NextIndex(s) && Bookmarks.HeadAt(s'.slots, s'.top) == Some(s.phase.table)
  {
  }

  lemma AppendKeeps(w: World, s: State, wr: Write)
    requires Inv(w, s) && s.phase.Tabled?
    ensures Inv(w, Appended(s, wr))
  {
    if wr.Lost? {
      FailKeeps(w, s);
    } else {
      LandedTop(s);
      LandedKeeps(w, s);
      if wr.Done? {
        MarkedKeeps(w, Landed(s, NextIndex(s), s.phase.table));
      } else {
        FailKeeps(w, Landed(s, NextIndex(s), s.phase.table));
      }
    }
  }

  /** The archive at k reaches everything a batch folded into its branches. */
  lemma BatchReached(
    w: World, store: Store, now: int, before: map<string, Id>, batch: seq<Ticket>, k: Id, t: Ticket)
    requires IsOpen(store, k) && FoldedAll(store, w.self, before, ByBranch(Work(batch)), Branches(store, k))
    requires t in batch && Offered(w, store, now, t.p)
    ensures Reached(store, k, t.p)
  {
    var g := Delta(store);
    forall r | r in HeadsOf(t.p) ensures Reach(g, k, r) {
      var b, o :| b in t.p.heads && o in t.p.heads[b] && o == Some(r);
      HeadReached(w, store, before, batch, k, t, b, r);
    }
    forall id | id in t.p.ids ensures Reach(g, k, id) {
      var r :| r in HeadsOf(t.p) && Reach(g, r, id);
      ReachTrans(g, k, r, id);
    }
  }

  lemma HeadReached(
    w: World, store: Store, before: map<string, Id>, batch: seq<Ticket>, k: Id, t: Ticket, b: string, r: Id)
    requires IsOpen(store, k) && FoldedAll(store, w.self, before, ByBranch(Work(batch)), Branches(store, k))
    requires t in batch && b in t.p.heads && Some(r) in t.p.heads[b]
    ensures Reach(Delta(store), k, r)
  {
    var g := Delta(store);
    OffersFrom(batch, b, r);
    WorkHas(batch, t);
    assert b in Touched(Work(batch));
    var h := Branches(store, k)[b];
    FoldLosesNothing(store, w.self, Lookup(before, b), Offers(batch, b), h);
    ReachRefl(g, r);
    assert Reaches(g, Offers(batch, b), r);
    assert Reach(g, h, r);
    TableReaches(store, k, b);
    ReachTrans(g, k, h, r);
  }

  lemma WorkHas(batch: seq<Ticket>, t: Ticket)
    requires t in batch
    ensures t.p in Work(batch)
  {
    var i :| 0 <= i < |batch| && batch[i] == t;
    assert Work(batch)[i] == t.p;
  }

  lemma {:induction false} BatchIdsFrom(work: seq<Pending>, r: Id)
    requires r in BatchIds(work)
    ensures exists p :: p in work && (r in p.ids || r in HeadsOf(p))
  {
    var n := |work| - 1;
    assert work == work[..n] + [work[n]];
    if r in BatchIds(work[..n]) {
      BatchIdsFrom(work[..n], r);
    } else {
      assert work[n] in work;
    }
  }

  /** What a commit marks as merged is sound, so later walks may prune there. */
  lemma BatchSettled(w: World, store: Store, now: int, batch: seq<Ticket>)
    requires OwedOk(w, store, now, batch)
    ensures AllSettled(store, w.extra, now, BatchIds(Work(batch)))
  {
    forall r | r in BatchIds(Work(batch)) ensures Settled(store, w.extra, now, r) {
      BatchIdsFrom(Work(batch), r);
      var p :| p in Work(batch) && (r in p.ids || r in HeadsOf(p));
      var i :| 0 <= i < |batch| && Work(batch)[i] == p;
      assert Offered(w, store, now, batch[i].p);
      if r !in HeadsOf(p) {
        var h :| h in HeadsOf(p) && Reach(Delta(store), h, r);
        SettledBelow(store, w.extra, now, h, r);
      }
    }
  }

  lemma SettlingOk(
    w: World, s: State, before: map<string, Id>, k: Id)
    requires OwedOk(w, s.store, s.now, Owed(s)) && !s.phase.Free?
    requires IsOpen(s.store, k) &&
      FoldedAll(s.store, w.self, before, ByBranch(Work(s.phase.batch)), Branches(s.store, k))
    ensures forall t :: t in s.phase.batch ==> Reached(s.store, k, t.p)
    ensures AllSettled(s.store, w.extra, s.now, BatchIds(Work(s.phase.batch)))
  {
    forall t | t in s.phase.batch ensures Reached(s.store, k, t.p) {
      assert t in Owed(s);
      BatchReached(w, s.store, s.now, before, s.phase.batch, k, t);
    }
    forall t | t in s.phase.batch ensures t in Owed(s) {}
    BatchSettled(w, s.store, s.now, s.phase.batch);
  }

  lemma AllKept(
    w: World, store: Store, slots: Bookmarks.Slots, top: int, now: int, head: Id, heads: map<string, Id>, ph: Phase)
    requires ph.Folding? && ph.todo == {} && ph.newHeads == map[]
    requires PhaseOk(w, store, slots, top, now, head, heads, ph)
    ensures FoldedAll(store, w.self, heads, ByBranch(Work(ph.batch)), heads)
  {
    assert heads + map[] == heads;
    assert ByBranch(Work(ph.batch)) - {} == ByBranch(Work(ph.batch));
  }

  lemma NoAdvanceKeeps(w: World, s: State)
    requires Inv(w, s) && Enabled(w, s, NoAdvance)
    ensures Inv(w, Apply(w, s, NoAdvance))
  {
    AllKept(w, s.store, s.slots, s.top, s.now, s.head, s.heads, s.phase);
    SettlingOk(w, s, s.heads, s.head);
    PhaseMoves(w, s, Settling(s.phase.caller, s.phase.batch, Committed(s.head)));
  }

  /** A table over the head opens the next archive, which reaches the one before it. */
  lemma SuccessorOpens(
    w: World, store: Store, now: int, head: Id, heads: map<string, Id>, work: seq<Pending>,
    newHeads: map<string, Id>, t: Id)
    requires IsOpen(store, head) && Branches(store, head) == heads
    requires Follows(w, store, now, head, heads, work, newHeads, t)
    ensures IsOpen(store, t) && Branches(store, t) == heads + newHeads && TabularAt(store, t)
    ensures Reach(Delta(store), t, head) && t != head
    ensures AllSettled(store, w.extra, now, newHeads.Values + {t})
  {
    TableRestates(store, t, head, w.self, newHeads);
    TableIsNew(store, t, head, w.self, newHeads);
    MintedIsTabular(store, t, Some(head), w.self, newHeads);
    assert Edge(head, EDGE_DIFF, None, None) in EdgeSet(store[t].edges);
    ReachStep(Delta(store), t, head);
    forall h | h in newHeads.Values ensures Settled(store, w.extra, now, h) {
      var n :| n in newHeads && newHeads[n] == h;
      assert Edge(h, EDGE_BRANCH, Some(n), None) in EdgeSet(store[t].edges);
      ReachStep(Delta(store), t, h);
      SettledBelow(store, w.extra, now, t, h);
    }
  }

  lemma GrantedRises(store: Store, head: Id, head': Id, granted: set<(Id, Pending)>)
    requires GrantedOk(store, head, granted) && Reach(Delta(store), head', head)
    ensures GrantedOk(store, head', granted)
  {
    forall r | r in granted ensures Reach(Delta(store), head', r.0) {
      ReachTrans(Delta(store), head', head, r.0);
    }
  }

  lemma PublishKeeps(w: World, s: State)
    requires Inv(w, s) && Enabled(w, s, Publish)
    ensures Inv(w, Apply(w, s, Publish))
  {
    PublishReady(w, s);
    Published(w, s, Apply(w, s, Publish), Settling(s.phase.caller, s.phase.batch, Committed(s.phase.table)));
  }

  lemma PublishReady(w: World, s: State)
    requires Inv(w, s) && s.phase.Marked?
    ensures Anchored(w, s.store, s.slots, s.top, s.phase.index, s.phase.table, s.heads + s.phase.newHeads)
    ensures StraysOk(w, s.store, s.slots, s.top, s.phase.index, s.now, s.phase.table, s.heads + s.phase.newHeads)
    ensures WriterOk(s.wrote, s.top, s.phase.index, Free) && GrantedOk(s.store, s.phase.table, s.granted)
    ensures RootsOk(w, s.store, s.now, s.phase.table,
      s.committed + s.phase.newHeads.Values + {s.phase.table} + BatchIds(Work(s.phase.batch)))
    ensures forall t :: t in s.phase.batch ==> Reached(s.store, s.phase.table, t.p)
  {
    var ph := s.phase;
    SuccessorOpens(w, s.store, s.now, s.head, s.heads, Work(ph.batch), ph.newHeads, ph.table);
    SettlingOk(w, s, s.heads, ph.table);
    PublishedAnchored(w, s);
    GrantedRises(s.store, s.head, ph.table, s.granted);
  }

  lemma PublishedAnchored(w: World, s: State)
    requires Anchored(w, s.store, s.slots, s.top, s.at, s.head, s.heads) && WriterOk(s.wrote, s.top, s.at, s.phase)
    requires s.phase.Marked? && s.top == s.phase.index
    requires Bookmarks.HeadAt(s.slots, s.top) == Some(s.phase.table)
    requires IsOpen(s.store, s.phase.table) && TabularAt(s.store, s.phase.table)
    requires Branches(s.store, s.phase.table) == s.heads + s.phase.newHeads
    ensures Anchored(w, s.store, s.slots, s.top, s.phase.index, s.phase.table, s.heads + s.phase.newHeads)
    ensures StraysOk(w, s.store, s.slots, s.top, s.phase.index, s.now, s.phase.table, s.heads + s.phase.newHeads)
    ensures WriterOk(s.wrote, s.top, s.phase.index, Free)
  {
  }

  lemma Published(w: World, s: State, s': State, ph': Phase)
    requires s.phase.Marked? && ph' == Settling(s.phase.caller, s.phase.batch, Committed(s.phase.table))
    requires OwedOk(w, s.store, s.now, Owed(s)) && CallsOk(s.calls, s.queue, s.phase)
    requires ReceiptsOk(s.calls, s.granted) && (!s.lapsed ==> Linked(w, s.store, s.slots, s.top))
    requires s' == s.(heads := s.heads + s.phase.newHeads, head := s.phase.table, at := s.phase.index,
      committed := s.committed + s.phase.newHeads.Values + {s.phase.table} + BatchIds(Work(s.phase.batch)),
      phase := ph')
    requires Anchored(w, s.store, s.slots, s.top, s'.at, s'.head, s'.heads)
    requires StraysOk(w, s.store, s.slots, s.top, s'.at, s.now, s'.head, s'.heads) &&
      WriterOk(s.wrote, s.top, s'.at, Free)
    requires RootsOk(w, s.store, s.now, s'.head, s'.committed) && GrantedOk(s.store, s'.head, s.granted)
    requires forall t :: t in s.phase.batch ==> Reached(s.store, s.phase.table, t.p)
    ensures Inv(w, s')
  {
    SameHolder(s.calls, s.queue, s.phase, ph');
  }

  // ---- Stopping and reopening ----

  /** What lies above the head is one advance of this very state. */
  lemma StrayAbove(w: World, s: State) returns (stray: Id)
    requires Bookmarks.Spans(s.slots, 0, s.top) && 0 <= s.at < s.top
    requires StraysOk(w, s.store, s.slots, s.top, s.at, s.now, s.head, s.heads)
    ensures Bookmarks.HeadAt(s.slots, s.top) == Some(stray)
    ensures Successor(w, s.store, s.now, s.head, s.heads, stray)
  {
    assert Bookmarks.Present(s.slots, s.top);
    stray := s.slots[s.top].head;
  }

  lemma StrayOpens(w: World, s: State, t: Id)
    requires IsOpen(s.store, s.head) && Branches(s.store, s.head) == s.heads
    requires Successor(w, s.store, s.now, s.head, s.heads, t)
    ensures IsOpen(s.store, t) && TabularAt(s.store, t) && Reach(Delta(s.store), t, s.head)
    ensures Settled(s.store, w.extra, s.now, t)
  {
    var work, newHeads :| Follows(w, s.store, s.now, s.head, s.heads, work, newHeads, t);
    SuccessorOpens(w, s.store, s.now, s.head, s.heads, work, newHeads, t);
  }

  /** The list's top names the head in memory, or one advance of it. */
  lemma TopHead(w: World, s: State)
    requires Anchored(w, s.store, s.slots, s.top, s.at, s.head, s.heads)
    requires StraysOk(w, s.store, s.slots, s.top, s.at, s.now, s.head, s.heads)
    requires RootsOk(w, s.store, s.now, s.head, s.committed)
    ensures Bookmarks.Present(s.slots, s.top) && IsOpen(s.store, s.slots[s.top].head)
    ensures TabularAt(s.store, s.slots[s.top].head)
    ensures Reach(Delta(s.store), s.slots[s.top].head, s.head)
    ensures Settled(s.store, w.extra, s.now, s.slots[s.top].head)
  {
    assert Bookmarks.Present(s.slots, s.top);
    if s.at < s.top {
      var t := StrayAbove(w, s);
      StrayOpens(w, s, t);
    } else {
      ReachRefl(Delta(s.store), s.head);
    }
  }

  lemma ReopenKeeps(w: World, s: State)
    requires Inv(w, s)
    ensures Enabled(w, s, Reopen) && Inv(w, Apply(w, s, Reopen))
  {
    TopHead(w, s);
    var head := s.slots[s.top].head;
    GrantedRises(s.store, s.head, head, s.granted);
    AnchoredAtTop(w, s);
    assert Held(Free) + [] == [];
  }

  lemma AnchoredAtTop(w: World, s: State)
    requires Anchored(w, s.store, s.slots, s.top, s.at, s.head, s.heads)
    requires Bookmarks.Present(s.slots, s.top) && IsOpen(s.store, s.slots[s.top].head)
    requires TabularAt(s.store, s.slots[s.top].head)
    ensures Anchored(w, s.store, s.slots, s.top, s.top, s.slots[s.top].head, Branches(s.store, s.slots[s.top].head))
  {
  }

  lemma ReturnKeeps(w: World, s: State, k: Caller)
    requires Inv(w, s) && Enabled(w, s, Return(k))
    ensures Inv(w, Apply(w, s, Return(k)))
  {
    ReturnCalls(s.calls, s.queue, s.phase, k);
    SameReceipts(s.calls, s.granted, k, Returned);
    CallersMove(w, s, At(s, k, Returned), s.queue, s.phase);
  }

  lemma ReturnCalls(calls: map<Caller, Call>, queue: seq<Ticket>, phase: Phase, k: Caller)
    requires CallsOk(calls, queue, phase) && k in calls && calls[k].spot.Leaving? && calls[k].outcome.Some?
    ensures CallsOk(calls[k := calls[k].(spot := Returned)], queue, phase)
  {
  }

  predicate Commits(a: Action) {
    a.Keep? || a.Take? || a.Join? || a.NoAdvance? || a.MintTable? || a.Append? || a.Publish? || a.Fail?
  }

  predicate FoldsBranch(a: Action) {
    a.Keep? || a.Take? || a.Join?
  }

  lemma FoldStepKeeps(w: World, s: State, a: Action)
    requires Inv(w, s) && FoldsBranch(a) && Enabled(w, s, a)
    ensures Inv(w, Apply(w, s, a))
  {
    if a.Keep? {
      KeepKeeps(w, s, a.b);
    } else if a.Take? {
      TakeKeeps(w, s, a.b, a.h);
    } else {
      JoinKeeps(w, s, a.b, a.roots, a.c);
    }
  }

  lemma TableStepKeeps(w: World, s: State, a: Action)
    requires Inv(w, s) && (a.NoAdvance? || a.MintTable? || a.Fail?) && Enabled(w, s, a)
    ensures Inv(w, Apply(w, s, a))
  {
    if a.NoAdvance? {
      NoAdvanceKeeps(w, s);
    } else if a.MintTable? {
      MintTableKeeps(w, s, a.c);
    } else {
      FailKeeps(w, s);
    }
  }

  lemma CommitStepKeeps(w: World, s: State, a: Action)
    requires Inv(w, s) && Commits(a) && Enabled(w, s, a)
    ensures Inv(w, Apply(w, s, a))
  {
    if FoldsBranch(a) {
      FoldStepKeeps(w, s, a);
    } else if a.Append? {
      AppendKeeps(w, s, a.w);
    } else if a.Publish? {
      PublishKeeps(w, s);
    } else {
      TableStepKeeps(w, s, a);
    }
  }

  lemma CallerStepKeeps(w: World, s: State, a: Action)
    requires Inv(w, s) && (a.Enqueue? || a.Acquire? || a.Settle? || a.Release? || a.Return?) && Enabled(w, s, a)
    ensures Inv(w, Apply(w, s, a))
  {
    if a.Enqueue? {
      EnqueueKeeps(w, s, a.caller, a.p);
    } else if a.Acquire? {
      AcquireKeeps(w, s, a.caller);
    } else if a.Settle? {
      SettleKeeps(w, s);
    } else if a.Release? {
      ReleaseKeeps(w, s);
    } else {
      ReturnKeeps(w, s, a.caller);
    }
  }

  lemma OuterStepKeeps(w: World, s: State, a: Action)
    requires Inv(w, s) && (a.Tick? || a.Stage? || a.Reopen?) && Enabled(w, s, a)
    ensures Inv(w, Apply(w, s, a))
  {
    if a.Tick? {
      GrowthKeeps(w, s, s.store, a.t);
    } else if a.Stage? {
      PutKeeps(w, s, a.c, s.now);
    } else {
      ReopenKeeps(w, s);
    }
  }

  /** Every action keeps the invariant, so every reachable state has it. */
  lemma StepKeeps(w: World, s: State, a: Action)
    requires Inv(w, s) && Enabled(w, s, a)
    ensures Inv(w, Apply(w, s, a))
  {
    if Commits(a) {
      CommitStepKeeps(w, s, a);
    } else if a.Tick? || a.Stage? || a.Reopen? {
      OuterStepKeeps(w, s, a);
    } else {
      CallerStepKeeps(w, s, a);
    }
  }
}
