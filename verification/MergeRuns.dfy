/** What the merge protocol guarantees over whole runs: nobody is stranded, receipts last, no
    update is lost, a crash recovers the state before or after, and all that is committed is
    sound. */
module MergeRuns {
  import opened Graphs
  import opened Claims
  import opened Options
  import opened Folds
  import opened Sequencers
  import opened Minting
  import opened Merges
  import Bookmarks
  import Verifier

  /** Found has returned: one bookmark names the head, and nobody has called Merge yet. */
  ghost predicate Founded(w: World, s: State) {
    && Addresses(w.digest) && ContentAddressed(s.store, w.digest)
    && s.slots == map[0 := Bookmarks.Entry(s.head)] && s.top == 0 && s.at == 0 && s.wrote
    && IsOpen(s.store, s.head) && Branches(s.store, s.head) == s.heads && TabularAt(s.store, s.head)
    && RootsOk(w, s.store, s.now, s.head, s.committed)
    && s.calls == map[] && s.queue == [] && s.phase == Free && s.granted == {} && !s.lapsed
  }

  ghost predicate Next(w: World, s: State, s': State) {
    exists a :: Enabled(w, s, a) && s' == Apply(w, s, a)
  }

  ghost predicate Run(w: World, run: seq<State>) {
    run != [] && Founded(w, run[0]) && forall i :: 0 <= i < |run| - 1 ==> Next(w, run[i], run[i + 1])
  }

  lemma FoundedKeeps(w: World, s: State)
    requires Founded(w, s)
    ensures Inv(w, s)
  {
    assert Owed(s) == [];
  }

  lemma {:induction false} RunKeeps(w: World, run: seq<State>, i: nat)
    requires Run(w, run) && i < |run|
    ensures Inv(w, run[i])
  {
    if i == 0 {
      FoundedKeeps(w, run[0]);
    } else {
      RunKeeps(w, run, i - 1);
      assert Next(w, run[i - 1], run[i - 1 + 1]);
      var a :| Enabled(w, run[i - 1], a) && run[i] == Apply(w, run[i - 1], a);
      StepKeeps(w, run[i - 1], a);
    }
  }

  // ---- Merge strands nobody ----

  ghost predicate OncePerCaller(owed: seq<Ticket>) {
    forall i, j :: 0 <= i < j < |owed| ==> owed[i].caller != owed[j].caller
  }

  /** Each unsettled call is owed an outcome by exactly one queue entry, and a caller that has
      left drain finds its own settled. */
  lemma NobodyIsStranded(w: World, run: seq<State>, i: nat, k: Caller)
    requires Run(w, run) && i < |run| && k in run[i].calls
    ensures run[i].calls[k].outcome.None? <==>
      exists j :: 0 <= j < |Owed(run[i])| && Owed(run[i])[j].caller == k
    ensures OncePerCaller(Owed(run[i]))
    ensures run[i].calls[k].spot.Leaving? || run[i].calls[k].spot.Returned? ==> run[i].calls[k].outcome.Some?
  {
    RunKeeps(w, run, i);
    var owed := Owed(run[i]);
    assert Owes(owed, k) <==> exists j :: 0 <= j < |owed| && owed[j].caller == k;
  }

  /** An outcome is given once: nothing short of the process stopping changes it. */
  lemma OutcomesStand(w: World, s: State, a: Action, k: Caller)
    requires CallsOk(s.calls, s.queue, s.phase) && Enabled(w, s, a) && !a.Reopen?
    requires k in s.calls && s.calls[k].outcome.Some?
    ensures k in Apply(w, s, a).calls && Apply(w, s, a).calls[k].outcome == s.calls[k].outcome
  {
    if a.Settle? {
      FirstIsOwed(s.calls, s.queue, s.phase);
    } else {
      OutcomesAlone(w, s, a, k);
    }
  }

  /** Only settling tells a call anything. */
  lemma OutcomesAlone(w: World, s: State, a: Action, k: Caller)
    requires Enabled(w, s, a) && !a.Reopen? && !a.Settle? && k in s.calls
    ensures k in Apply(w, s, a).calls && Apply(w, s, a).calls[k].outcome == s.calls[k].outcome
  {
    if a.Append? {
      AppendOnly(w, s, a.w);
    }
  }

  lemma FirstIsOwed(calls: map<Caller, Call>, queue: seq<Ticket>, ph: Phase)
    requires CallsOk(calls, queue, ph) && ph.Settling? && ph.batch != []
    ensures ph.batch[0].caller in calls && calls[ph.batch[0].caller].outcome.None?
  {
    assert ph.batch[0] in Held(ph) + queue;
    assert Owes(Held(ph) + queue, ph.batch[0].caller);
  }

  // The moves callers make on their own account.
  predicate Internal(a: Action) {
    Commits(a) || a.Acquire? || a.Settle? || a.Release? || a.Return?
  }

  function Waiters(s: State): set<Caller> {
    set k | k in s.calls && s.calls[k].spot.Queued?
  }

  function Unreturned(s: State): set<Caller> {
    set k | k in s.calls && !s.calls[k].spot.Returned?
  }

  function PhaseCost(ph: Phase): nat {
    match ph
    case Free => 0
    case Folding(_, batch, todo, _) => |batch| + |todo| + 5
    case Tabled(_, batch, _, _) => |batch| + 4
    case Marked(_, batch, _, _, _) => |batch| + 3
    case Settling(_, batch, _) => |batch| + 1
  }

  predicate Cheaper(s': State, s: State) {
    || |Waiters(s')| < |Waiters(s)|
    || (|Waiters(s')| == |Waiters(s)| &&
          (PhaseCost(s'.phase) < PhaseCost(s.phase) ||
           (PhaseCost(s'.phase) == PhaseCost(s.phase) && |Unreturned(s')| < |Unreturned(s)|)))
  }

  /** Every such move brings the callers closer to having returned, so none of them can go on
      forever. */
  lemma MovesRunOut(w: World, s: State, a: Action)
    requires Inv(w, s) && Enabled(w, s, a) && Internal(a)
    ensures Cheaper(Apply(w, s, a), s)
  {
    if FoldsBranch(a) {
      FoldSpends(w, s, a);
    } else if Commits(a) {
      CommitSpends(w, s, a);
    } else {
      CallerSpends(w, s, a);
    }
  }

  lemma CallerSpends(w: World, s: State, a: Action)
    requires CallsOk(s.calls, s.queue, s.phase) && Enabled(w, s, a) && Internal(a) && !Commits(a)
    ensures Cheaper(Apply(w, s, a), s)
  {
    match a
    case Acquire(k) => AcquireSpends(w, s, k);
    case Return(k) => ReturnSpends(w, s, k);
    case Release => assert Waiters(Apply(w, s, a)) == Waiters(s);
    case Settle => assert Waiters(Apply(w, s, a)) == Waiters(s);
  }

  lemma AcquireSpends(w: World, s: State, k: Caller)
    requires Enabled(w, s, Acquire(k))
    ensures Cheaper(Apply(w, s, Acquire(k)), s)
  {
    assert k in Waiters(s) && Waiters(Apply(w, s, Acquire(k))) == Waiters(s) - {k};
  }

  lemma ReturnSpends(w: World, s: State, k: Caller)
    requires Enabled(w, s, Return(k))
    ensures Cheaper(Apply(w, s, Return(k)), s)
  {
    var s' := Apply(w, s, Return(k));
    assert Waiters(s') == Waiters(s);
    assert k in Unreturned(s) && Unreturned(s') == Unreturned(s) - {k};
  }

  lemma FoldSpends(w: World, s: State, a: Action)
    requires Enabled(w, s, a) && FoldsBranch(a)
    ensures Cheaper(Apply(w, s, a), s)
  {
    SameCalls(w, s, a);
    assert |s.phase.todo - {a.b}| == |s.phase.todo| - 1;
    assert Apply(w, s, a).phase.todo == s.phase.todo - {a.b};
  }

  lemma CommitSpends(w: World, s: State, a: Action)
    requires Enabled(w, s, a) && Commits(a) && !FoldsBranch(a)
    ensures Cheaper(Apply(w, s, a), s)
  {
    SameCalls(w, s, a);
    PhaseSpends(w, s, a);
  }

  lemma SameCalls(w: World, s: State, a: Action)
    requires Enabled(w, s, a) && Commits(a)
    ensures Apply(w, s, a).calls == s.calls
  {
    if a.Append? {
      AppendOnly(w, s, a.w);
    }
  }

  lemma PhaseSpends(w: World, s: State, a: Action)
    requires Enabled(w, s, a) && Commits(a) && !FoldsBranch(a)
    ensures PhaseCost(Apply(w, s, a).phase) < PhaseCost(s.phase)
  {
    if a.Append? {
      AppendOnly(w, s, a.w);
    }
  }

  // ---- Receipts ----

  lemma GrantStays(w: World, s: State, a: Action)
    requires Enabled(w, s, a)
    ensures s.granted <= Apply(w, s, a).granted
  {
    if a.Append? {
      AppendOnly(w, s, a.w);
    }
  }

  lemma {:induction false} GrantsStay(w: World, run: seq<State>, i: nat, j: nat)
    requires Run(w, run) && i <= j < |run|
    ensures run[i].granted <= run[j].granted
  {
    if i < j {
      GrantsStay(w, run, i, j - 1);
      assert Next(w, run[j - 1], run[j - 1 + 1]);
      var a :| Enabled(w, run[j - 1], a) && run[j] == Apply(w, run[j - 1], a);
      GrantStays(w, run[j - 1], a);
    }
  }

  /** The head of a receipt reaches every claim of its contribution, and so does every head after
      it, across failures, other merges and restarts. */
  lemma GrantsLast(w: World, run: seq<State>, i: nat, j: nat, r: (Id, Pending))
    requires Run(w, run) && i <= j < |run| && r in run[i].granted
    ensures Reached(run[j].store, r.0, r.1) && Reached(run[j].store, run[j].head, r.1)
    ensures Reach(Delta(run[j].store), run[j].head, r.0)
  {
    GrantsStay(w, run, i, j);
    RunKeeps(w, run, j);
    assert r in run[j].granted;
    forall c | c in HeadsOf(r.1) || c in r.1.ids ensures Reach(Delta(run[j].store), run[j].head, c) {
      ReachTrans(Delta(run[j].store), run[j].head, r.0, c);
    }
  }

  /** What a call of Merge is told stays true: the head it names reaches every claim the call
      brought, and so does every archive head from then on. */
  lemma ReceiptsLast(w: World, run: seq<State>, i: nat, j: nat, k: Caller)
    requires Run(w, run) && i <= j < |run| && k in run[i].calls
    requires run[i].calls[k].outcome.Some? && run[i].calls[k].outcome.value.Committed?
    ensures var h, p := run[i].calls[k].outcome.value.head, run[i].calls[k].p;
      && Reached(run[j].store, h, p) && Reached(run[j].store, run[j].head, p)
      && Reach(Delta(run[j].store), run[j].head, h)
  {
    RunKeeps(w, run, i);
    GrantsLast(w, run, i, j, (run[i].calls[k].outcome.value.head, run[i].calls[k].p));
  }

  // ---- A contribution waiting to be merged ----

  /** What a contribution is sealed over stays good until it is queued, whatever is staged and
      committed in between, as long as the Sequencer it was made from runs. */
  lemma OfferableStays(w: World, s: State, a: Action, r: Id)
    requires Injective(w.digest) && ContentAddressed(s.store, w.digest)
    requires Enabled(w, s, a) && !a.Reopen? && Offerable(w, s, r)
    ensures Offerable(w, Apply(w, s, a), r)
  {
    var s' := Apply(w, s, a);
    StoreOnly(w, s, a);
    var t :| t <= s.now && OfferableAt(w, s, t, r);
    OfferableLater(w, s, s', t, r);
    assert OfferableAt(w, s', t, r);
  }

  lemma StoreOnly(w: World, s: State, a: Action)
    requires Injective(w.digest) && ContentAddressed(s.store, w.digest) && Enabled(w, s, a) && !a.Reopen?
    ensures Grows(s.store, Apply(w, s, a).store) && s.now <= Apply(w, s, a).now
    ensures s.committed <= Apply(w, s, a).committed
  {
    if Puts(a) {
      PutsOne(w, s, a);
      PutGrows(s.store, w.digest, a.c);
    } else {
      PutsNone(w, s, a);
    }
    LaterAndMore(w, s, a);
  }

  predicate Puts(a: Action) {
    a.Stage? || a.Join? || a.MintTable?
  }

  lemma PutsOne(w: World, s: State, a: Action)
    requires Enabled(w, s, a) && Puts(a)
    ensures Apply(w, s, a).store == Put(s.store, w.digest, a.c)
  {
  }

  lemma PutsNone(w: World, s: State, a: Action)
    requires Enabled(w, s, a) && !Puts(a)
    ensures Apply(w, s, a).store == s.store
  {
    if a.Append? {
      AppendOnly(w, s, a.w);
    }
  }

  lemma LaterAndMore(w: World, s: State, a: Action)
    requires Enabled(w, s, a) && !a.Reopen?
    ensures s.now <= Apply(w, s, a).now && s.committed <= Apply(w, s, a).committed
  {
    if a.Append? {
      AppendOnly(w, s, a.w);
    }
  }

  lemma OfferableLater(w: World, s: State, s': State, t: int, r: Id)
    requires Grows(s.store, s'.store) && s.committed <= s'.committed && OfferableAt(w, s, t, r)
    ensures OfferableAt(w, s', t, r)
  {
    if Verified(s.store, w.extra, t, s.committed, r) {
      VerifiedStays(s.store, s'.store, w.extra, t, s.committed, s'.committed, r);
    } else {
      var refs :| Consolidates(w, s, t, refs, r);
      forall q | q in refs && q != w.self ensures Verified(s'.store, w.extra, t, s'.committed, q) {
        VerifiedStays(s.store, s'.store, w.extra, t, s.committed, s'.committed, q);
      }
      MintedLater(s.store, s'.store, w.extra, t, refs, r);
      assert Consolidates(w, s', t, refs, r);
    }
  }

  lemma MintedLater(s: Store, s': Store, extra: Claim -> bool, t: int, refs: set<Id>, r: Id)
    requires Grows(s, s') && MintedOver(s, extra, t, refs, r)
    ensures MintedOver(s', extra, t, refs, r)
  {
    var q :| q in refs && s[q].height + 1 == s[r].height;
    assert s'[q].height + 1 == s'[r].height;
  }

  // ---- A commit ----

  /** Publishing loses nothing: each touched branch becomes the union of what it held and what
      the batch brought, and no other branch moves. */
  lemma PublishMerges(w: World, s: State)
    requires Inv(w, s) && Enabled(w, s, Publish)
    ensures MergedAll(s.store, w.self, s.heads, Work(s.phase.batch), Apply(w, s, Publish).heads)
    ensures Leaves(s.heads, Apply(w, s, Publish).heads, Touched(Work(s.phase.batch)))
  {
    FollowedMerges(w, s.store, s.now, s.head, s.heads, Work(s.phase.batch), s.phase.newHeads, s.phase.table);
  }

  lemma FollowedMerges(
    w: World, store: Store, now: int, head: Id, heads: map<string, Id>, work: seq<Pending>,
    newHeads: map<string, Id>, t: Id)
    requires Follows(w, store, now, head, heads, work, newHeads, t)
    ensures MergedAll(store, w.self, heads, work, heads + newHeads)
    ensures Leaves(heads, heads + newHeads, Touched(work))
  {
    LoseNothing(store, w.self, heads, work, heads + newHeads);
    TouchedStand(store, w.self, heads, work, newHeads);
  }

  lemma TouchedStand(s: Store, self: Id, heads: map<string, Id>, work: seq<Pending>, newHeads: map<string, Id>)
    requires newHeads.Keys <= Touched(work) && FoldedAll(s, self, heads, ByBranch(work), heads + newHeads)
    ensures Leaves(heads, heads + newHeads, Touched(work))
  {
    forall b | b in Touched(work) ensures b in heads + newHeads {
      assert b in ByBranch(work);
    }
    Restated(heads, newHeads, Touched(work));
  }

  // ---- Crash and reopen ----

  /** Whenever the process stops, reopening finds the state before or the state after an
      advance: nothing in between, and nothing lost from any branch. */
  lemma ReopenIsBeforeOrAfter(w: World, s: State)
    requires Inv(w, s)
    ensures Enabled(w, s, Reopen)
    ensures var s' := Apply(w, s, Reopen);
      || (s.at == s.top && s'.head == s.head && s'.heads == s.heads)
      || exists work, newHeads ::
           && Follows(w, s.store, s.now, s.head, s.heads, work, newHeads, s'.head)
           && s'.heads == s.heads + newHeads
           && MergedAll(s.store, w.self, s.heads, work, s'.heads)
           && Leaves(s.heads, s'.heads, Touched(work))
  {
    ReopenKeeps(w, s);
    var head := s.slots[s.top].head;
    if s.at < s.top {
      assert Bookmarks.Present(s.slots, s.top);
      var work, newHeads :| Follows(w, s.store, s.now, s.head, s.heads, work, newHeads, head);
      SuccessorOpens(w, s.store, s.now, s.head, s.heads, work, newHeads, head);
      FollowedMerges(w, s.store, s.now, s.head, s.heads, work, newHeads, head);
    }
  }

  /** Once the bookmark is acknowledged, stopping before the publish loses nothing of it. */
  lemma AcknowledgedSurvives(w: World, s: State)
    requires Inv(w, s) && s.phase.Marked?
    ensures Enabled(w, s, Reopen) && Enabled(w, s, Publish)
    ensures Apply(w, s, Reopen).head == Apply(w, s, Publish).head
    ensures Apply(w, s, Reopen).heads == Apply(w, s, Publish).heads
  {
    var ph := s.phase;
    ReopenKeeps(w, s);
    SuccessorOpens(w, s.store, s.now, s.head, s.heads, Work(ph.batch), ph.newHeads, ph.table);
  }

  /** In every reachable state the list has no gap, and its top is the head in memory unless
      an append is under way or failed after its record landed. */
  lemma ListIsContiguous(w: World, run: seq<State>, i: nat)
    requires Run(w, run) && i < |run|
    ensures Bookmarks.Spans(run[i].slots, 0, run[i].top)
    ensures Bookmarks.HeadAt(run[i].slots, run[i].at) == Some(run[i].head)
    ensures IsOpen(run[i].store, run[i].head) && Branches(run[i].store, run[i].head) == run[i].heads
    ensures !run[i].lapsed ==> Linked(w, run[i].store, run[i].slots, run[i].top)
  {
    RunKeeps(w, run, i);
  }

  /** An append keeps the bookmarked tables linked by diffs exactly when its writer has written
      before or no earlier append of its own left a record above the head it opened at. */
  lemma AppendLinks(w: World, s: State, wr: Write)
    requires Inv(w, s) && Enabled(w, s, Append(wr)) && !wr.Lost?
    requires Linked(w, s.store, s.slots, s.top)
    ensures var s' := Apply(w, s, Append(wr));
      Linked(w, s.store, s'.slots, s'.top) <==> s.wrote || s.at == s.top
  {
    AppendLands(w, s, wr);
    LinksExactly(w, s);
  }

  lemma AppendLands(w: World, s: State, wr: Write)
    requires Inv(w, s) && Enabled(w, s, Append(wr)) && !wr.Lost?
    ensures Apply(w, s, Append(wr)).slots == s.slots[NextIndex(s) := Bookmarks.Entry(s.phase.table)]
    ensures Apply(w, s, Append(wr)).top == NextIndex(s)
  {
    NextIndexAbove(s);
  }

  lemma LinksExactly(w: World, s: State)
    requires Anchored(w, s.store, s.slots, s.top, s.at, s.head, s.heads) && WriterOk(s.wrote, s.top, s.at, s.phase)
    requires StraysOk(w, s.store, s.slots, s.top, s.at, s.now, s.head, s.heads)
    requires PhaseOk(w, s.store, s.slots, s.top, s.now, s.head, s.heads, s.phase)
    requires s.phase.Tabled? && Linked(w, s.store, s.slots, s.top)
    ensures Linked(w, s.store, s.slots[NextIndex(s) := Bookmarks.Entry(s.phase.table)], NextIndex(s))
      <==> s.wrote || s.at == s.top
  {
    if s.wrote || s.at == s.top {
      LinkKept(w, s);
    } else {
      LinkMissed(w, s);
    }
  }

  lemma LinkMissed(w: World, s: State)
    requires Anchored(w, s.store, s.slots, s.top, s.at, s.head, s.heads)
    requires StraysOk(w, s.store, s.slots, s.top, s.at, s.now, s.head, s.heads)
    requires PhaseOk(w, s.store, s.slots, s.top, s.now, s.head, s.heads, s.phase)
    requires s.phase.Tabled? && !s.wrote && s.at != s.top
    ensures !Linked(w, s.store, s.slots[NextIndex(s) := Bookmarks.Entry(s.phase.table)], NextIndex(s))
  {
    LinkLost(w, s);
    LinkBroken(w, s.store, s.slots, s.top, s.phase.table);
  }

  lemma LinkLost(w: World, s: State)
    requires Anchored(w, s.store, s.slots, s.top, s.at, s.head, s.heads)
    requires StraysOk(w, s.store, s.slots, s.top, s.at, s.now, s.head, s.heads)
    requires PhaseOk(w, s.store, s.slots, s.top, s.now, s.head, s.heads, s.phase)
    requires s.phase.Tabled? && s.at != s.top
    ensures 0 <= s.top && Bookmarks.Present(s.slots, s.top)
    ensures !LinkedAt(w, s.store, s.slots[s.top].head, s.phase.table)
  {
    var stray := StrayAbove(w, s);
    StrayParts(w, s, stray);
  }

  lemma LinkKept(w: World, s: State)
    requires Anchored(w, s.store, s.slots, s.top, s.at, s.head, s.heads) && WriterOk(s.wrote, s.top, s.at, s.phase)
    requires PhaseOk(w, s.store, s.slots, s.top, s.now, s.head, s.heads, s.phase)
    requires s.phase.Tabled? && Linked(w, s.store, s.slots, s.top) && (s.wrote || s.at == s.top)
    ensures s.top <= NextIndex(s)
    ensures Linked(w, s.store, s.slots[NextIndex(s) := Bookmarks.Entry(s.phase.table)], NextIndex(s))
  {
    NextIndexAbove(s);
    TabledFollows(w, s);
    NextLinked(w, s.store, s.slots, s.top, s.at, s.head, s.phase.table);
  }

  lemma LinkBroken(w: World, store: Store, slots: Bookmarks.Slots, top: int, t: Id)
    requires 0 <= top && Bookmarks.Present(slots, top) && !LinkedAt(w, store, slots[top].head, t)
    ensures !Linked(w, store, slots[top + 1 := Bookmarks.Entry(t)], top + 1)
  {
    var slots' := slots[top + 1 := Bookmarks.Entry(t)];
    assert Bookmarks.Present(slots', top) && Bookmarks.Present(slots', top + 1);
    assert !LinkedAt(w, store, slots'[top].head, slots'[top + 1].head);
  }

  lemma StrayParts(w: World, s: State, stray: Id)
    requires Anchored(w, s.store, s.slots, s.top, s.at, s.head, s.heads)
    requires PhaseOk(w, s.store, s.slots, s.top, s.now, s.head, s.heads, s.phase) && s.phase.Tabled?
    requires Successor(w, s.store, s.now, s.head, s.heads, stray)
    ensures !LinkedAt(w, s.store, stray, s.phase.table)
  {
    var t := s.phase.table;
    var work, newHeads :| Follows(w, s.store, s.now, s.head, s.heads, work, newHeads, stray);
    SuccessorOpens(w, s.store, s.now, s.head, s.heads, work, newHeads, stray);
    if LinkedAt(w, s.store, stray, t) {
      var changed :| IsTable(s.store[t], Some(stray), w.self, changed);
      TableDiff(s.store[t].edges, Some(stray), w.self, changed);
      TableDiff(s.store[t].edges, Some(s.head), w.self, s.phase.newHeads);
    }
  }

  // ---- Everything committed is sound ----

  /** Pruned verification is sound over whole runs: all that lies below the head and below any
      claim marked as merged is held and keeps the rules. So a committed height is the longest
      walk below its claim, and no date runs backwards. */
  lemma CommittedIsSound(w: World, run: seq<State>, i: nat, a: Id)
    requires Run(w, run) && i < |run|
    requires Reaches(Delta(run[i].store), run[i].committed + {run[i].head}, a)
    ensures WellMeasured(run[i].store, a)
  {
    RunKeeps(w, run, i);
    var s := run[i].store;
    var r :| r in run[i].committed + {run[i].head} && Reach(Delta(s), r, a);
    assert Settled(s, w.extra, run[i].now, r);
    SettledBelow(s, w.extra, run[i].now, r, a);
    SoundMeasures(s, w.extra, a);
  }

  /** The height of a is the longest walk below it, and nothing below it is dated later. */
  ghost predicate WellMeasured(s: Store, a: Id) {
    && a in s
    && (exists b :: ReachIn(Delta(s), a, b, s[a].height))
    && (forall b, m: nat :: ReachIn(Delta(s), a, b, m) ==> m <= s[a].height)
    && (forall b :: Reach(Delta(s), a, b) ==> b in s && s[b].createdAt <= s[a].createdAt)
  }

  lemma SoundMeasures(s: Store, extra: Claim -> bool, a: Id)
    requires Verifier.Sound(s, extra, {a})
    ensures WellMeasured(s, a)
  {
    Verifier.HeightIsLongestWalk(s, extra, a);
    forall b | Reach(Delta(s), a, b) ensures b in s && s[b].createdAt <= s[a].createdAt {
      var n: nat :| ReachIn(Delta(s), a, b, n);
      Verifier.DatesNeverDecrease(s, extra, a, b, n);
    }
  }
}
