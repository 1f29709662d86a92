/** That merges get somewhere (concurrent.go): whatever state the protocol is in, some step that
    succeeds is open, and such steps run out with every waiting call committed. */
module Progress {
  import opened Claims
  import opened Folds
  import opened Graphs
  import opened Merges
  import opened MergeRuns
  import opened Minting
  import opened Options
  import opened Sequencers
  import Bookmarks
  import Membership
  import Diffs

  /** The record rules hold of every claim the Sequencer signs. */
  ghost predicate Signs(w: World) {
    forall c: Claim :: c.kind == NODE_HEAD || c.kind == NODE_BRANCHES ==> w.extra(c)
  }

  lemma {:induction false} Enumerated<T>(xs: set<T>) returns (q: seq<T>)
    ensures forall x :: x in q <==> x in xs
    ensures forall i, j :: 0 <= i < j < |q| ==> q[i] != q[j]
    decreases xs
  {
    if x :| x in xs {
      var rest := Enumerated(xs - {x});
      q := [x] + rest;
    } else {
      q := [];
    }
  }

  // ---- Folding a branch ----

  /** Offers the branch does not hold leave roots to fold. */
  lemma RootsFound(g: Graph, prior: Option<Id>, offers: set<Id>) returns (roots: set<Id>)
    requires News(g, prior, offers)
    ensures FoldsTo(g, prior, offers, roots) && roots != {}
  {
    var news := set h | h in offers && !(prior.Some? && Reach(g, prior.value, h));
    if prior.Some? && !Reaches(g, news, prior.value) {
      roots := news + {prior.value};
    } else {
      roots := news;
    }
  }

  function HeadEdge(r: Id): Edge {
    Edge(r, EDGE_HEAD, None, None)
  }

  lemma EdgesOver(roots: set<Id>, self: Id) returns (es: seq<Edge>)
    ensures Targets(EdgeSet(es)) == roots + {self}
  {
    var list := Enumerated(roots);
    es := seq(|list|, i requires 0 <= i < |list| => HeadEdge(list[i])) + [Edge(self, EDGE_CONTRIBUTOR, None, None)];
    forall i | 0 <= i < |es| ensures es[i] in EdgeSet(es) {}
    forall r ensures r in Targets(EdgeSet(es)) <==> r in roots + {self} {
      if r in roots {
        var i :| 0 <= i < |list| && list[i] == r;
        assert es[i] == HeadEdge(r);
      }
      if r == self {
        assert es[|list|].reference == self;
      }
    }
  }

  lemma HeadOver(w: World, s: State, roots: set<Id>) returns (c: Claim)
    requires Signs(w) && roots + {w.self} <= s.store.Keys
    ensures c.kind == NODE_HEAD && Mintable(w, s, roots + {w.self}, c)
  {
    var es := EdgesOver(roots, w.self);
    AutoHeightIsAbove(s.store, roots + {w.self});
    c := Claim(NODE_HEAD, es, s.now, MaxHeight(s.store, roots + {w.self}) + 1, None, {}, 0);
  }

  /** A branch with no head that is offered none: the source fails the batch. */
  ghost predicate Headless(s: State, b: string)
    requires s.phase.Folding?
  {
    b !in s.heads && Offers(s.phase.batch, b) == {}
  }

  predicate Handles(a: Action, b: string) {
    a == Keep(b) || (a.Take? && a.b == b) || (a.Join? && a.b == b)
  }

  lemma FoldMoves(w: World, s: State, b: string) returns (a: Action)
    requires Inv(w, s) && Signs(w) && s.phase.Folding? && b in s.phase.todo && !Headless(s, b)
    ensures Enabled(w, s, a) && Handles(a, b)
  {
    if News(Delta(s.store), Lookup(s.heads, b), Offers(s.phase.batch, b)) {
      var roots := RootsFound(Delta(s.store), Lookup(s.heads, b), Offers(s.phase.batch, b));
      RootsHeld(w, s, b, roots);
      a := FoldOver(w, s, b, roots);
    } else {
      KeepOpen(w, s, b);
      a := Keep(b);
    }
  }

  lemma RootsHeld(w: World, s: State, b: string, roots: set<Id>)
    requires Inv(w, s) && s.phase.Folding?
    requires roots <= Offers(s.phase.batch, b) + Optional(Lookup(s.heads, b))
    ensures roots + {w.self} <= s.store.Keys
  {
    FoldRootsSettled(w, s, b, roots);
    forall r | r in roots + {w.self} ensures r in s.store {
      assert r in roots || Settled(s.store, w.extra, s.now, r);
    }
  }

  lemma KeepOpen(w: World, s: State, b: string)
    requires s.phase.Folding? && b in s.phase.todo && !Headless(s, b)
    requires !News(Delta(s.store), Lookup(s.heads, b), Offers(s.phase.batch, b))
    ensures Enabled(w, s, Keep(b))
  {
    forall h | h in Offers(s.phase.batch, b) ensures b in s.heads && Reach(Delta(s.store), s.heads[b], h) {}
  }

  lemma FoldOver(w: World, s: State, b: string, roots: set<Id>) returns (a: Action)
    requires Signs(w) && s.phase.Folding? && b in s.phase.todo && roots != {} && roots + {w.self} <= s.store.Keys
    requires News(Delta(s.store), Lookup(s.heads, b), Offers(s.phase.batch, b))
    requires FoldsTo(Delta(s.store), Lookup(s.heads, b), Offers(s.phase.batch, b), roots)
    ensures Enabled(w, s, a) && Handles(a, b)
  {
    if |roots| == 1 {
      var h :| h in roots;
      assert |roots - {h}| == 0;
      assert roots == {h};
      a := Take(b, h);
    } else {
      var c := HeadOver(w, s, roots);
      a := Join(b, roots, c);
    }
  }

  // ---- The table ----

  /** The edges of that table, in some order. */
  lemma TableListed(prev: Id, self: Id, changed: map<string, Id>) returns (es: seq<Edge>)
    ensures EdgeSet(es) == TableEdges(Some(prev), self, changed) && Diffs.DistinctNames(es)
  {
    es := Enumerated(TableEdges(Some(prev), self, changed));
    assert EdgeSet(es) == TableEdges(Some(prev), self, changed);
    EdgesDistinct(es, Some(prev), self, changed);
  }

  /** What it references is held. */
  lemma TableHeld(w: World, s: State, refs: set<Id>)
    requires RootsOk(w, s.store, s.now, s.head, s.committed) && s.phase.Folding?
    requires AllSettled(s.store, w.extra, s.now, s.phase.newHeads.Values)
    requires refs == Targets(TableEdges(Some(s.head), w.self, s.phase.newHeads))
    ensures refs <= s.store.Keys && refs != {}
  {
    forall r | r in refs ensures r in s.store {
      TableTargets(s.head, w.self, s.phase.newHeads, r);
      assert r in s.phase.newHeads.Values || Settled(s.store, w.extra, s.now, r);
    }
    assert Edge(w.self, EDGE_CONTRIBUTOR, None, None) in TableEdges(Some(s.head), w.self, s.phase.newHeads);
    assert w.self in refs;
  }

  lemma TableOver(w: World, s: State) returns (c: Claim)
    requires Inv(w, s) && Signs(w) && s.phase.Folding? && s.phase.todo == {} && s.phase.newHeads != map[]
    ensures Enabled(w, s, MintTable(c))
  {
    var es := TableListed(s.head, w.self, s.phase.newHeads);
    var refs := Targets(EdgeSet(es));
    TableHeld(w, s, refs);
    AutoHeightIsAbove(s.store, refs);
    c := Claim(NODE_BRANCHES, es, s.now, MaxHeight(s.store, refs) + 1, None, {}, 0);
  }

  lemma TableTargets(prev: Id, self: Id, changed: map<string, Id>, r: Id)
    requires r in Targets(TableEdges(Some(prev), self, changed))
    ensures r == prev || r == self || r in changed.Values
  {
  }

  lemma EdgesDistinct(es: seq<Edge>, prev: Option<Id>, self: Id, changed: map<string, Id>)
    requires EdgeSet(es) == TableEdges(prev, self, changed)
    requires forall i, j :: 0 <= i < j < |es| ==> es[i] != es[j]
    ensures Diffs.DistinctNames(es)
  {
    forall i, j | 0 <= i < j < |es| && es[i].name.Some? ensures es[i].name != es[j].name {
      TableEdge(es, prev, self, changed, es[i]);
      TableEdge(es, prev, self, changed, es[j]);
    }
  }

  // ---- Every call is served ----

  /** A step callers take on their own account and that succeeds, but where a branch has no head
      to give: there the batch has to fail. */
  ghost predicate Serves(s: State, a: Action) {
    && Internal(a) && (a.Append? ==> a.w.Done?)
    && (a.Fail? ==> s.phase.Folding? && exists b :: b in s.phase.todo && Headless(s, b))
  }

  /** While a call has not returned, somebody can move, and without a failure. */
  lemma SomebodyMoves(w: World, s: State, k: Caller) returns (a: Action)
    requires Inv(w, s) && Signs(w) && k in s.calls && !s.calls[k].spot.Returned?
    ensures Serves(s, a) && Enabled(w, s, a)
  {
    match s.phase
    case Free => a := if s.calls[k].spot.Queued? then Acquire(k) else Return(k);
    case Folding(_, _, _, _) => a := BatchMoves(w, s);
    case Tabled(_, _, _, _) => a := Append(Done);
    case Marked(_, _, _, _, _) => a := Publish;
    case Settling(_, batch, _) =>
      if batch == [] {
        a := Release;
      } else {
        FirstIsOwed(s.calls, s.queue, s.phase);
        a := Settle;
      }
  }

  lemma BatchMoves(w: World, s: State) returns (a: Action)
    requires Inv(w, s) && Signs(w) && s.phase.Folding?
    ensures Serves(s, a) && Enabled(w, s, a)
  {
    if b :| b in s.phase.todo {
      if Headless(s, b) {
        a := Fail;
      } else {
        a := FoldMoves(w, s, b);
      }
    } else if s.phase.newHeads == map[] {
      a := NoAdvance;
    } else {
      var c := TableOver(w, s);
      a := MintTable(c);
    }
  }

  /** Some steps of the protocol lead from one state to the other. */
  ghost predicate Leads(w: World, s: State, s': State, n: nat)
    decreases n
  {
    if n == 0 then s == s' else exists mid :: Next(w, s, mid) && Leads(w, mid, s', n - 1)
  }

  /** Each branch a waiting contribution names, it names a head for. */
  ghost predicate Sealed(s: State) {
    forall t, b :: t in Owed(s) && b in t.p.heads ==> Membership.Named(t.p.heads[b]) != {}
  }

  /** A contribution waiting, and not in a batch that failed. */
  ghost predicate Waits(s: State, t: Ticket) {
    t in s.queue || (t in Held(s.phase) && !(s.phase.Settling? && s.phase.outcome.Refused?))
  }

  /** Its call was told a head, and the receipt was handed out. */
  ghost predicate Granted(s: State, t: Ticket) {
    && t.caller in s.calls && s.calls[t.caller].outcome.Some? && s.calls[t.caller].outcome.value.Committed?
    && (s.calls[t.caller].outcome.value.head, t.p) in s.granted
  }

  lemma NeverHeadless(w: World, s: State, b: string)
    requires Inv(w, s) && Sealed(s) && s.phase.Folding? && b in s.phase.todo
    ensures !Headless(s, b)
  {
    var p :| p in Work(s.phase.batch) && b in p.heads;
    var i :| 0 <= i < |s.phase.batch| && Work(s.phase.batch)[i] == p;
    assert s.phase.batch[i] in Owed(s);
    var r :| r in Membership.Named(p.heads[b]);
    OffersFrom(s.phase.batch, b, r);
  }

  lemma SealedStays(w: World, s: State, a: Action)
    requires Sealed(s) && Enabled(w, s, a) && Internal(a)
    ensures Sealed(Apply(w, s, a))
  {
    forall t, b | t in Owed(Apply(w, s, a)) && b in t.p.heads ensures Membership.Named(t.p.heads[b]) != {} {
      OwedBefore(w, s, a, t);
    }
  }

  lemma OwedBefore(w: World, s: State, a: Action, t: Ticket)
    requires Enabled(w, s, a) && Internal(a) && t in Owed(Apply(w, s, a))
    ensures t in Owed(s)
  {
    if a.Settle? {
      assert t in s.phase.batch[1..] + s.queue;
    } else if a.Append? {
      AppendOnly(w, s, a.w);
    }
  }

  /** A step that succeeds leaves a waiting contribution waiting, or hands it its receipt. */
  lemma WaitsOrGranted(w: World, s: State, a: Action, t: Ticket)
    requires Inv(w, s) && Enabled(w, s, a) && Serves(s, a) && !a.Fail?
    requires Waits(s, t) || Granted(s, t)
    ensures Waits(Apply(w, s, a), t) || Granted(Apply(w, s, a), t)
  {
    if Granted(s, t) {
      GrantedStays(w, s, a, t);
    } else if a.Settle? && t in s.phase.batch && t == s.phase.batch[0] {
    } else {
      WaitsOn(w, s, a, t);
    }
  }

  lemma GrantedStays(w: World, s: State, a: Action, t: Ticket)
    requires CallsOk(s.calls, s.queue, s.phase) && Enabled(w, s, a) && Internal(a) && Granted(s, t)
    ensures Granted(Apply(w, s, a), t)
  {
    OutcomesStand(w, s, a, t.caller);
    GrantStays(w, s, a);
  }

  lemma WaitsOn(w: World, s: State, a: Action, t: Ticket)
    requires Enabled(w, s, a) && Serves(s, a) && !a.Fail? && Waits(s, t)
    requires a.Settle? ==> t != s.phase.batch[0]
    ensures Waits(Apply(w, s, a), t)
  {
    if a.Settle? && t in s.phase.batch {
      assert t in s.phase.batch[1..];
    }
  }

  lemma NobodyWaits(w: World, s: State, t: Ticket)
    requires Inv(w, s) && forall k :: k in s.calls ==> s.calls[k].spot.Returned?
    requires Waits(s, t) || Granted(s, t)
    ensures Granted(s, t)
  {
    if Waits(s, t) {
      WaiterIsUnsettled(s, t);
    }
  }

  lemma WaiterIsUnsettled(s: State, t: Ticket)
    requires CallsOk(s.calls, s.queue, s.phase) && Waits(s, t)
    ensures t.caller in s.calls && !s.calls[t.caller].spot.Returned?
  {
    assert t in Owed(s);
    assert Owes(Owed(s), t.caller);
  }

  /** No contribution that waits or has its receipt is lost sight of. */
  ghost predicate Follows(s: State, s': State) {
    forall t :: Waits(s, t) || Granted(s, t) ==> Waits(s', t) || Granted(s', t)
  }

  /** Some run of the protocol comes to s. */
  ghost predicate Reachable(w: World, s: State) {
    exists run :: RunTo(w, run, s)
  }

  ghost predicate RunTo(w: World, run: seq<State>, s: State) {
    Run(w, run) && run[|run| - 1] == s
  }

  lemma ReachableKeeps(w: World, s: State)
    requires Reachable(w, s)
    ensures Inv(w, s)
  {
    var run :| RunTo(w, run, s);
    RunKeeps(w, run, |run| - 1);
  }

  lemma RunReaches(w: World, run: seq<State>, i: nat)
    requires Run(w, run) && i < |run|
    ensures Reachable(w, run[i])
  {
    var part := run[..i + 1];
    assert Run(w, part) by {
      forall j | 0 <= j < |part| - 1 ensures Next(w, part[j], part[j + 1]) {
        NextInRun(w, run, j);
      }
    }
    assert RunTo(w, part, run[i]);
  }

  lemma NextInRun(w: World, run: seq<State>, i: nat)
    requires Run(w, run) && i + 1 < |run|
    ensures Next(w, run[i], run[i + 1])
  {
  }

  lemma RunOn(w: World, run: seq<State>, s: State, s': State)
    requires RunTo(w, run, s) && Next(w, s, s')
    ensures RunTo(w, run + [s'], s')
  {
    var more := run + [s'];
    forall i | 0 <= i < |more| - 1 ensures Next(w, more[i], more[i + 1]) {
      if i + 1 < |run| {
        NextInRun(w, run, i);
        assert more[i] == run[i] && more[i + 1] == run[i + 1];
      } else {
        assert more[i] == s && more[i + 1] == s';
      }
    }
    assert more[0] == run[0];
  }

  lemma ReachableNext(w: World, s: State, s': State)
    requires Reachable(w, s) && Next(w, s, s')
    ensures Reachable(w, s')
  {
    var run :| RunTo(w, run, s);
    RunOn(w, run, s, s');
  }

  lemma OneServed(w: World, s: State, k: Caller) returns (mid: State)
    requires Reachable(w, s) && Signs(w) && Sealed(s) && k in s.calls && !s.calls[k].spot.Returned?
    ensures Next(w, s, mid) && Reachable(w, mid) && Sealed(mid) && Cheaper(mid, s) && Follows(s, mid)
  {
    ReachableKeeps(w, s);
    var a := SomebodyMoves(w, s, k);
    ServesSealed(w, s, a);
    mid := Apply(w, s, a);
    assert Next(w, s, mid);
    ReachableNext(w, s, mid);
    MovesRunOut(w, s, a);
    SealedStays(w, s, a);
    forall t | Waits(s, t) || Granted(s, t) ensures Waits(mid, t) || Granted(mid, t) {
      WaitsOrGranted(w, s, a, t);
    }
  }

  ghost predicate AllReturned(s: State) {
    forall k :: k in s.calls ==> s.calls[k].spot.Returned?
  }

  ghost predicate Ends(s: State, s': State) {
    forall t :: Waits(s, t) || Granted(s, t) ==> Granted(s', t)
  }

  lemma EndsHere(w: World, s: State)
    requires Reachable(w, s) && AllReturned(s)
    ensures Ends(s, s)
  {
    ReachableKeeps(w, s);
    forall t | Waits(s, t) || Granted(s, t) ensures Granted(s, t) {
      NobodyWaits(w, s, t);
    }
  }

  /** Steps that succeed lead to a state where every call has returned, and every contribution
      that was waiting has been committed and has its receipt. */
  ghost predicate Served(w: World, s: State) {
    exists s': State, n: nat :: Leads(w, s, s', n) && AllReturned(s') && Ends(s, s')
  }

  lemma ServedHere(w: World, s: State)
    requires Reachable(w, s) && AllReturned(s)
    ensures Served(w, s)
  {
    EndsHere(w, s);
    assert Leads(w, s, s, 0);
  }

  lemma ServedOn(w: World, s: State, mid: State)
    requires Next(w, s, mid) && Follows(s, mid) && Served(w, mid)
    ensures Served(w, s)
  {
    var s': State, n: nat :| Leads(w, mid, s', n) && AllReturned(s') && Ends(mid, s');
    assert Leads(w, s, s', n + 1);
  }

  /** That is so of every state a run comes to. */
  lemma {:induction false} EveryCallIsServed(w: World, s: State)
    requires Reachable(w, s) && Signs(w) && Sealed(s)
    ensures Served(w, s)
    decreases |Waiters(s)|, PhaseCost(s.phase), |Unreturned(s)|
  {
    if AllReturned(s) {
      ServedHere(w, s);
    } else {
      var k :| k in s.calls && !s.calls[k].spot.Returned?;
      var mid := OneServed(w, s, k);
      EveryCallIsServed(w, mid);
      ServedOn(w, s, mid);
    }
  }

  lemma ServesSealed(w: World, s: State, a: Action)
    requires Inv(w, s) && Sealed(s) && Serves(s, a)
    ensures !a.Fail?
  {
    if a.Fail? {
      var b :| b in s.phase.todo && Headless(s, b);
      NeverHeadless(w, s, b);
    }
  }
}
