/** Runs that come to the states the merge protocol's theorems speak of: one that publishes and
    hands out a receipt, and one whose append goes over a record its writer has not read. */
module Scenarios {
  import opened Claims
  import opened Folds
  import opened Graphs
  import opened Merges
  import opened MergeRuns
  import opened Minting
  import opened Options
  import opened Progress
  import opened Sequencers
  import Bookmarks
  import Foundings
  import Membership
  import Verifier

  lemma Steps(w: World, s: State, a: Action, s': State)
    requires Reachable(w, s) && Enabled(w, s, a) && s' == Apply(w, s, a)
    ensures Reachable(w, s')
  {
    assert Next(w, s, s');
    ReachableNext(w, s, s');
  }

  /** A state that can take a contribution to b: the thread is free and nobody waits. */
  ghost predicate Idle(w: World, s: State, b: string) {
    Reachable(w, s) && (forall c: Claim :: w.extra(c)) && s.phase.Free? && s.queue == [] && b in s.heads
  }

  /** Nothing a reader could see, or a writer remembers, has changed. */
  predicate SameArchive(s: State, s': State) {
    && s'.slots == s.slots && s'.top == s.top && s'.at == s.at && s'.wrote == s.wrote && s'.lapsed == s.lapsed
    && s'.head == s.head && s'.heads == s.heads && s'.granted == s.granted
  }

  // ---- A contribution of one new claim ----

  /** A claim over the Sequencer's own contributor, dated at. */
  function Fresh(w: World, s: Store, at: int): Claim
    requires w.self in s
  {
    Claim("", [Edge(w.self, EDGE_CONTRIBUTOR, None, None)], at, s[w.self].height + 1, None, {}, 0)
  }

  lemma FreshVerified(w: World, s: Store, now: int, at: int, trusted: set<Id>)
    requires Settled(s, w.extra, now, w.self) && now <= at && (forall c: Claim :: w.extra(c))
    requires Injective(w.digest) && ContentAddressed(s, w.digest)
    ensures Verified(Put(s, w.digest, Fresh(w, s, at)), w.extra, at, trusted, w.digest(Fresh(w, s, at)))
  {
    var c := Fresh(w, s, at);
    var s', r := Put(s, w.digest, c), w.digest(c);
    PutGrows(s, w.digest, c);
    SettledGrows(s, s', w.extra, now, at, w.self);
    assert Above(s', {w.self}, c.height);
    assert EdgeSet(c.edges) == {c.edges[0]};
    assert Targets(EdgeSet(c.edges)) == {w.self};
    MintSettled(s', w.extra, at, {w.self}, r);
    SettledVerified(s', w.extra, at, trusted, r);
  }

  lemma SettledVerified(s: Store, extra: Claim -> bool, t: int, trusted: set<Id>, r: Id)
    requires Settled(s, extra, t, r)
    ensures Verified(s, extra, t, trusted, r)
  {
    SoundComplete(s, extra, r);
    forall a | Verifier.Judgeable(s, trusted, {r}, a) ensures Verifier.Lawful(s, extra, a) {
      var n: nat :| ReachIn(Verifier.Pruned(Delta(s), trusted), r, a, n);
      PrunedReach(Delta(s), trusted, r, a, n);
      assert Reaches(Delta(s), {r}, a);
    }
  }

  /** It is news to every branch: what a branch holds is dated no later than now. */
  lemma FreshIsNews(w: World, s: Store, s': Store, now: int, at: int, h: Id)
    requires Settled(s, w.extra, now, h) && now < at && w.self in s
    requires Grows(s, s') && w.digest(Fresh(w, s, at)) in s' && s'[w.digest(Fresh(w, s, at))] == Fresh(w, s, at)
    ensures !Reach(Delta(s'), h, w.digest(Fresh(w, s, at)))
  {
    var r := w.digest(Fresh(w, s, at));
    SoundComplete(s, w.extra, h);
    GrowsDelta(s, s');
    ExtendClosure(Delta(s), Delta(s'), h);
    if Reach(Delta(s'), h, r) {
      SettledBelow(s, w.extra, now, h, r);
    }
  }

  // ---- From an idle state to a minted table ----

  function Offering(w: World, s: State, b: string): Pending
    requires w.self in s.store
  {
    var r := w.digest(Fresh(w, s.store, s.now + 1));
    Pending(map[b := [Some(r)]], [r])
  }

  lemma OfferingHeads(w: World, s: State, b: string)
    requires w.self in s.store
    ensures HeadsOf(Offering(w, s, b)) == {w.digest(Fresh(w, s.store, s.now + 1))}
  {
    var r := w.digest(Fresh(w, s.store, s.now + 1));
    assert Some(r) in Offering(w, s, b).heads[b];
  }

  lemma IdleSound(w: World, s: State, b: string)
    requires Idle(w, s, b)
    ensures Injective(w.digest) && ContentAddressed(s.store, w.digest)
    ensures Settled(s.store, w.extra, s.now, w.self) && Settled(s.store, w.extra, s.now, s.heads[b])
  {
    ReachableKeeps(w, s);
    TableReaches(s.store, s.head, b);
    assert Settled(s.store, w.extra, s.now, s.head);
    SettledBelow(s.store, w.extra, s.now, s.head, s.heads[b]);
    assert Settled(s.store, w.extra, s.now, w.self);
  }

  /** The state once a claim of a later tick has been staged. */
  function Staged(w: World, s: State): State
    requires w.self in s.store
  {
    s.(now := s.now + 1, store := Put(s.store, w.digest, Fresh(w, s.store, s.now + 1)))
  }

  lemma StagedReachable(w: World, s: State)
    requires Reachable(w, s) && w.self in s.store
    ensures Reachable(w, Staged(w, s))
  {
    var s1 := s.(now := s.now + 1);
    Steps(w, s, Tick(s.now + 1), s1);
    StageIs(w, s, s1);
    Steps(w, s1, Stage(Fresh(w, s.store, s.now + 1)), Staged(w, s));
  }

  lemma StageIs(w: World, s: State, s1: State)
    requires w.self in s.store && s1 == s.(now := s.now + 1)
    ensures Apply(w, s1, Stage(Fresh(w, s.store, s.now + 1))) == Staged(w, s)
  {
  }

  lemma StagedIsNews(w: World, s: State, h: Id)
    requires Injective(w.digest) && ContentAddressed(s.store, w.digest)
    requires w.self in s.store && Settled(s.store, w.extra, s.now, h)
    ensures !Reach(Delta(Staged(w, s).store), h, w.digest(Fresh(w, s.store, s.now + 1)))
  {
    var c := Fresh(w, s.store, s.now + 1);
    var store' := Put(s.store, w.digest, c);
    PutGrows(s.store, w.digest, c);
    assert w.digest(c) in store' && store'[w.digest(c)] == c;
    FreshIsNews(w, s.store, store', s.now, s.now + 1, h);
  }

  lemma StagedOffers(w: World, s: State, k: Caller, b: string)
    requires Idle(w, s, b) && w.self in s.store && k !in s.calls
    ensures Enabled(w, Staged(w, s), Enqueue(k, Offering(w, s, b)))
  {
    var r, s' := w.digest(Fresh(w, s.store, s.now + 1)), Staged(w, s);
    IdleSound(w, s, b);
    FreshVerified(w, s.store, s.now, s.now + 1, s.committed);
    OfferingHeads(w, s, b);
    ReachRefl(Delta(s'.store), r);
    OneOffer(w, s', k, Offering(w, s, b), r);
  }

  lemma OneOffer(w: World, s: State, k: Caller, p: Pending, r: Id)
    requires k !in s.calls && HeadsOf(p) == {r} && p.ids == [r] && Reach(Delta(s.store), r, r)
    requires Verified(s.store, w.extra, s.now, s.committed, r)
    ensures Enabled(w, s, Enqueue(k, p))
  {
    assert OfferableAt(w, s, s.now, r);
  }

  /** The batch of that one contribution, about to be folded. */
  function Held(w: World, s: State, k: Caller, b: string): State
    requires w.self in s.store
  {
    Staged(w, s).(
      calls := s.calls[k := Call(Offering(w, s, b), Holding, None)],
      phase := Folding(k, [Ticket(k, Offering(w, s, b))], {b}, map[]))
  }

  /** The contribution is queued. */
  function Queueing(w: World, s: State, k: Caller, b: string): State
    requires w.self in s.store
  {
    Staged(w, s).(calls := s.calls[k := Call(Offering(w, s, b), Queued, None)], queue := [Ticket(k, Offering(w, s, b))])
  }

  lemma HeldReachable(w: World, s: State, k: Caller, b: string)
    requires Idle(w, s, b) && w.self in s.store && k !in s.calls
    ensures Reachable(w, Held(w, s, k, b))
  {
    StagedReachable(w, s);
    StagedOffers(w, s, k, b);
    EnqueueIs(w, s, k, b);
    Steps(w, Staged(w, s), Enqueue(k, Offering(w, s, b)), Queueing(w, s, k, b));
    AcquireIs(w, s, k, b);
    Steps(w, Queueing(w, s, k, b), Acquire(k), Held(w, s, k, b));
  }

  lemma EnqueueIs(w: World, s: State, k: Caller, b: string)
    requires w.self in s.store && s.queue == [] && Enabled(w, Staged(w, s), Enqueue(k, Offering(w, s, b)))
    ensures Apply(w, Staged(w, s), Enqueue(k, Offering(w, s, b))) == Queueing(w, s, k, b)
  {
    var t := Ticket(k, Offering(w, s, b));
    assert s.queue + [t] == [t];
  }

  lemma AcquireIs(w: World, s: State, k: Caller, b: string)
    requires w.self in s.store && s.phase.Free? && s.queue == []
    ensures Enabled(w, Queueing(w, s, k, b), Acquire(k))
    ensures Apply(w, Queueing(w, s, k, b), Acquire(k)) == Held(w, s, k, b)
  {
    var q := Queueing(w, s, k, b);
    TouchedByOne(Ticket(k, Offering(w, s, b)));
    assert Offering(w, s, b).heads.Keys == {b};
    var call := Call(Offering(w, s, b), Holding, None);
    assert q.calls[k := call] == s.calls[k := call];
  }

  lemma TouchedByOne(t: Ticket)
    ensures Touched(Work([t])) == t.p.heads.Keys
  {
    assert Work([t]) == [t.p];
  }

  lemma HeldHasNews(w: World, s: State, k: Caller, b: string)
    requires Idle(w, s, b) && w.self in s.store
    ensures News(Delta(Staged(w, s).store), Lookup(s.heads, b), Offers([Ticket(k, Offering(w, s, b))], b))
  {
    IdleSound(w, s, b);
    StagedIsNews(w, s, s.heads[b]);
    OfferedHere(w, s, k, b);
  }

  lemma OfferedHere(w: World, s: State, k: Caller, b: string)
    requires w.self in s.store
    ensures w.digest(Fresh(w, s.store, s.now + 1)) in Offers([Ticket(k, Offering(w, s, b))], b)
  {
    var r, t := w.digest(Fresh(w, s.store, s.now + 1)), Ticket(k, Offering(w, s, b));
    OffersFrom([t], b, r);
    assert t in [t] && Some(r) in t.p.heads[b];
  }

  /** From an idle state steps lead to a table minted over the same archive. */
  lemma TableComes(w: World, s: State, k: Caller, b: string) returns (s': State)
    requires Idle(w, s, b) && k !in s.calls
    ensures Reachable(w, s') && s'.phase.Tabled? && SameArchive(s, s') && s'.queue == []
    ensures w.self in s.store && s'.phase.batch == [Ticket(k, Offering(w, s, b))]
    ensures s'.phase.caller == k && s'.calls == s.calls[k := Call(Offering(w, s, b), Holding, None)]
  {
    IdleSound(w, s, b);
    var h := Held(w, s, k, b);
    HeldReachable(w, s, k, b);
    HeldHasNews(w, s, k, b);
    var f := FoldedOne(w, h, b);
    s' := TabledOne(w, f);
  }

  lemma FoldedOne(w: World, h: State, b: string) returns (f: State)
    requires Reachable(w, h) && Signs(w) && h.phase.Folding? && h.phase.todo == {b}
    requires News(Delta(h.store), Lookup(h.heads, b), Offers(h.phase.batch, b))
    ensures Reachable(w, f) && f.phase.Folding? && f.phase.todo == {} && f.phase.newHeads != map[]
    ensures f.phase.batch == h.phase.batch && f.phase.caller == h.phase.caller && f.calls == h.calls
    ensures SameArchive(h, f) && f.queue == h.queue
  {
    ReachableKeeps(w, h);
    var a := FoldMoves(w, h, b);
    f := Apply(w, h, a);
    FoldShape(w, h, a, b);
    Steps(w, h, a, f);
  }

  /** What folding the last branch leaves, whether a root is taken or a head minted. */
  lemma FoldShape(w: World, h: State, a: Action, b: string)
    requires h.phase.Folding? && h.phase.todo == {b} && Enabled(w, h, a) && Handles(a, b)
    requires News(Delta(h.store), Lookup(h.heads, b), Offers(h.phase.batch, b))
    ensures var f := Apply(w, h, a);
      && f.phase.Folding? && f.phase.todo == {} && f.phase.newHeads != map[]
      && f.phase.batch == h.phase.batch && f.phase.caller == h.phase.caller && f.calls == h.calls
      && SameArchive(h, f) && f.queue == h.queue
  {
    assert !a.Keep?;
    assert b in Apply(w, h, a).phase.newHeads;
  }

  lemma TabledOne(w: World, f: State) returns (s': State)
    requires Reachable(w, f) && Signs(w) && f.phase.Folding? && f.phase.todo == {} && f.phase.newHeads != map[]
    ensures Reachable(w, s') && s'.phase.Tabled? && s'.phase.batch == f.phase.batch
    ensures s'.phase.caller == f.phase.caller && s'.calls == f.calls && SameArchive(f, s') && s'.queue == f.queue
  {
    ReachableKeeps(w, f);
    var c := TableOver(w, f);
    s' := Apply(w, f, MintTable(c));
    Steps(w, f, MintTable(c), s');
  }

  lemma FoundedIsIdle(w: World, s: State, b: string)
    requires Founded(w, s) && b in s.heads && (forall c: Claim :: w.extra(c))
    ensures Idle(w, s, b) && s.calls == map[]
  {
    assert RunTo(w, [s], s);
  }

  // ---- A commit ----

  /** The next two steps publish a new head and hand out the first receipt. */
  ghost predicate Committing(w: World, s: State) {
    Reachable(w, s) && s.phase.Marked? && s.granted == {} &&
    var s1 := Apply(w, s, Publish);
    s1.head != s.head && Enabled(w, s1, Settle) && Apply(w, s1, Settle).granted != {}
  }

  lemma MarkedCommits(w: World, s: State)
    requires Reachable(w, s) && s.phase.Marked? && s.granted == {}
    requires s.phase.batch != [] && s.phase.batch[0].caller in s.calls
    ensures Committing(w, s)
  {
    ReachableKeeps(w, s);
    MarkedMoves(w, s);
    MarkedGrants(w, s);
  }

  lemma MarkedMoves(w: World, s: State)
    requires Inv(w, s) && s.phase.Marked?
    ensures s.phase.table != s.head
  {
    var ph := s.phase;
    SuccessorOpens(w, s.store, s.now, s.head, s.heads, Work(ph.batch), ph.newHeads, ph.table);
  }

  lemma MarkedGrants(w: World, s: State)
    requires s.phase.Marked? && s.phase.batch != [] && s.phase.batch[0].caller in s.calls
    ensures var s1 := Apply(w, s, Publish);
      s1.head == s.phase.table && Enabled(w, s1, Settle) && Apply(w, s1, Settle).granted != {}
  {
    assert (s.phase.table, s.phase.batch[0].p) in Apply(w, Apply(w, s, Publish), Settle).granted;
  }

  lemma CommitComes(w: World, s: State, b: string) returns (m: State)
    requires Idle(w, s, b) && s.calls == map[] && s.granted == {}
    ensures Committing(w, m)
  {
    var t := TableComes(w, s, 0, b);
    m := Apply(w, t, Append(Done));
    AppendMarks(w, t, m);
    Steps(w, t, Append(Done), m);
    MarkedCommits(w, m);
  }

  lemma AppendMarks(w: World, t: State, m: State)
    requires t.phase.Tabled? && m == Apply(w, t, Append(Done))
    ensures m.phase.Marked? && m.phase.batch == t.phase.batch && m.calls == t.calls && m.granted == t.granted
  {
  }

  /** Some run publishes, and hands out a receipt. */
  lemma CommitIsPossible(b: string)
    ensures exists w: World, s: State :: Committing(w, s)
  {
    Foundings.FoundingIsPossible(b);
    var w: World, s: State :| Founded(w, s) && b in s.heads && forall c: Claim :: w.extra(c);
    FoundedIsIdle(w, s, b);
    var m := CommitComes(w, s, b);
  }

  // ---- An append over an unread record ----

  /** The next append succeeds, and what it writes is no diff of the record below it. */
  ghost predicate Lapsing(w: World, s: State) {
    && Reachable(w, s) && s.phase.Tabled? && !s.wrote && s.at < s.top
    && Linked(w, s.store, s.slots, s.top)
    && !Linked(w, s.store, Apply(w, s, Append(Done)).slots, Apply(w, s, Append(Done)).top)
  }

  lemma ReopenIdles(w: World, s: State, b: string) returns (s': State)
    requires Idle(w, s, b) && s.at == s.top && !s.lapsed
    ensures Idle(w, s', b) && s'.calls == map[] && !s'.wrote && s'.at == s'.top && !s'.lapsed
  {
    ReachableKeeps(w, s);
    ReopenIsBeforeOrAfter(w, s);
    s' := Apply(w, s, Reopen);
    Steps(w, s, Reopen, s');
  }

  /** The writer of s' knows nothing of a record above the head it opened at. */
  predicate Unread(s: State) {
    !s.wrote && s.at < s.top && !s.lapsed
  }

  lemma AppendHides(w: World, t: State, s': State)
    requires t.phase.Tabled? && !t.wrote && t.at == t.top && !t.lapsed && s' == Apply(w, t, Append(Hidden))
    ensures s'.phase == Settling(t.phase.caller, t.phase.batch, Refused)
    ensures Unread(s') && s'.calls == t.calls && s'.queue == t.queue && s'.heads == t.heads
  {
  }

  lemma SettleOnly(w: World, s: State, t: Ticket, s': State)
    requires s.phase.Settling? && s.phase.batch == [t] && t.caller in s.calls && Unread(s)
    requires s' == Apply(w, s, Settle)
    ensures s'.phase == Settling(s.phase.caller, [], s.phase.outcome)
    ensures Unread(s') && s'.calls.Keys == s.calls.Keys && s'.queue == s.queue && s'.heads == s.heads
  {
  }

  lemma ReleaseOnly(w: World, s: State, s': State)
    requires s.phase.Settling? && s.phase.batch == [] && s.phase.caller in s.calls && Unread(s)
    requires s' == Apply(w, s, Release)
    ensures s'.phase.Free?
    ensures Unread(s') && s'.calls.Keys == s.calls.Keys && s'.queue == s.queue && s'.heads == s.heads
  {
  }

  /** An append fails although its record landed, and its caller is told so. */
  lemma HiddenAppend(w: World, t: State, b: string) returns (s': State)
    requires Reachable(w, t) && t.phase.Tabled? && !t.wrote && t.at == t.top && !t.lapsed && t.queue == []
    requires |t.phase.batch| == 1 && t.phase.batch[0].caller in t.calls && t.phase.caller in t.calls && b in t.heads
    requires forall c: Claim :: w.extra(c)
    ensures Idle(w, s', b) && Unread(s') && s'.calls.Keys == t.calls.Keys
  {
    var k := t.phase.batch[0];
    assert t.phase.batch == [k];
    var s1 := Apply(w, t, Append(Hidden));
    AppendHides(w, t, s1);
    var s2 := Apply(w, s1, Settle);
    SettleOnly(w, s1, k, s2);
    s' := Apply(w, s2, Release);
    ReleaseOnly(w, s2, s');
    Steps(w, t, Append(Hidden), s1);
    Steps(w, s1, Settle, s2);
    Steps(w, s2, Release, s');
  }

  lemma UnreadComes(w: World, s: State, b: string) returns (s': State)
    requires Idle(w, s, b) && s.calls == map[] && !s.wrote && s.at == s.top && !s.lapsed
    ensures Idle(w, s', b) && Unread(s') && s'.calls.Keys == {0}
  {
    var t := TableComes(w, s, 0, b);
    assert t.calls.Keys == {0} && |t.phase.batch| == 1;
    s' := HiddenAppend(w, t, b);
  }

  lemma UnreadTable(w: World, s: State, k: Caller, b: string) returns (m: State)
    requires Idle(w, s, b) && Unread(s) && k !in s.calls
    ensures Lapsing(w, m)
  {
    m := TableComes(w, s, k, b);
    UnreadLapses(w, m);
  }

  lemma UnreadLapses(w: World, s: State)
    requires Reachable(w, s) && s.phase.Tabled? && Unread(s)
    ensures Lapsing(w, s)
  {
    ReachableKeeps(w, s);
    AppendLinks(w, s, Done);
  }

  ghost predicate CanLapse() {
    exists w: World, s: State :: Lapsing(w, s)
  }

  lemma LapseComes(w: World, s: State, b: string)
    requires Idle(w, s, b) && s.at == s.top && !s.lapsed
    ensures CanLapse()
  {
    var s1 := ReopenIdles(w, s, b);
    var s2 := UnreadComes(w, s1, b);
    var m := UnreadTable(w, s2, 1, b);
  }

  /** Some run reopens, fails an append that landed, and then writes over its record. */
  lemma LapseIsPossible(b: string)
    ensures CanLapse()
  {
    Foundings.FoundingIsPossible(b);
    var w: World, s: State :| Founded(w, s) && b in s.heads && forall c: Claim :: w.extra(c);
    FoundedIsIdle(w, s, b);
    LapseComes(w, s, b);
  }
}
