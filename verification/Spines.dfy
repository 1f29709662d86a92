/** The chain of tables below the head in every state a run of merges comes to: a spine with
    rising heights and growing branches, which is what the tag index assumes of an archive. */
module Spines {
  import opened Claims
  import opened Folds
  import opened Graphs
  import opened Merges
  import opened MergeRuns
  import opened Minting
  import opened Options
  import opened Sequencers
  import opened Tagger
  import Bookmarks
  import Foundings
  import Membership
  import Progress
  import Verifier

  /** Nothing any branch of any revision holds is missing. */
  ghost predicate Whole(s: Store, changed: seq<map<string, Id>>) {
    forall i: nat, b :: i < |changed| && b in HeadsAt(changed, i) ==> Complete(Delta(s), HeadsAt(changed, i)[b])
  }

  ghost predicate SpineAs(s: Store, self: Id, head: Id, tables: seq<Id>, changed: seq<map<string, Id>>) {
    && Spine(s, self, tables, changed) && tables != [] && tables[|tables| - 1] == head
    && Growing(s, changed) && Rising(s, tables) && Whole(s, changed)
  }

  /** The head tops a spine as the tag index needs it. */
  ghost predicate SpineTo(s: Store, self: Id, head: Id) {
    exists tables, changed :: SpineAs(s, self, head, tables, changed)
  }

  // ---- The store grows ----

  lemma OnGrows(s: Store, s': Store, changed: seq<map<string, Id>>, i: nat, b: string, c: Id)
    requires Grows(s, s') && Whole(s, changed) && i < |changed|
    ensures On(s', changed, i, b, c) <==> On(s, changed, i, b, c)
  {
    if b in HeadsAt(changed, i) {
      GrowsDelta(s, s');
      ExtendClosure(Delta(s), Delta(s'), HeadsAt(changed, i)[b]);
    }
  }

  lemma SpineGrows(s: Store, s': Store, self: Id, head: Id)
    requires SpineTo(s, self, head) && Grows(s, s') && Acyclic(s')
    ensures SpineTo(s', self, head)
  {
    var tables, changed :| SpineAs(s, self, head, tables, changed);
    GrowingGrows(s, s', changed);
    WholeGrows(s, s', changed);
    forall i: nat | i < |tables| ensures SpineAt(s', self, tables, changed, i) {
      assert SpineAt(s, self, tables, changed, i);
    }
    assert SpineAs(s', self, head, tables, changed);
  }

  lemma GrowingGrows(s: Store, s': Store, changed: seq<map<string, Id>>)
    requires Growing(s, changed) && Whole(s, changed) && Grows(s, s')
    ensures Growing(s', changed)
  {
    forall i: nat, b, c | i + 1 < |changed| && On(s', changed, i, b, c) ensures On(s', changed, i + 1, b, c) {
      StillStays(s, s', changed, i, b, c);
    }
  }

  lemma StillStays(s: Store, s': Store, changed: seq<map<string, Id>>, i: nat, b: string, c: Id)
    requires Growing(s, changed) && Whole(s, changed) && Grows(s, s')
    requires i + 1 < |changed| && On(s', changed, i, b, c)
    ensures On(s', changed, i + 1, b, c)
  {
    OnGrows(s, s', changed, i, b, c);
    assert On(s, changed, i + 1, b, c);
    OnGrows(s, s', changed, i + 1, b, c);
  }

  lemma WholeGrows(s: Store, s': Store, changed: seq<map<string, Id>>)
    requires Whole(s, changed) && Grows(s, s')
    ensures Whole(s', changed)
  {
    GrowsDelta(s, s');
    forall i: nat, b | i < |changed| && b in HeadsAt(changed, i) ensures Complete(Delta(s'), HeadsAt(changed, i)[b]) {
      ExtendClosure(Delta(s), Delta(s'), HeadsAt(changed, i)[b]);
    }
  }

  // ---- A table is added ----

  lemma {:induction false} HeadsAtPrefix(changed: seq<map<string, Id>>, more: map<string, Id>, i: nat)
    requires i < |changed|
    ensures HeadsAt(changed + [more], i) == HeadsAt(changed, i)
  {
    if i > 0 {
      HeadsAtPrefix(changed, more, i - 1);
    }
  }

  /** t is a table over head that loses no claim of any branch. */
  ghost predicate Advances(s: Store, self: Id, head: Id, heads: map<string, Id>, newHeads: map<string, Id>, t: Id) {
    && head in s && t in s && IsTable(s[t], Some(head), self, newHeads) && s[head].height < s[t].height
    && (forall b :: b in newHeads ==> Complete(Delta(s), newHeads[b])) && KeepsAll(s, heads, newHeads)
  }

  lemma HeadsAtNew(changed: seq<map<string, Id>>, more: map<string, Id>)
    requires changed != []
    ensures HeadsAt(changed + [more], |changed|) == HeadsAt(changed, |changed| - 1) + more
  {
    HeadsAtPrefix(changed, more, |changed| - 1);
  }

  lemma SpineLonger(
    s: Store, self: Id, tables: seq<Id>, changed: seq<map<string, Id>>, newHeads: map<string, Id>, t: Id)
    requires Spine(s, self, tables, changed) && tables != []
    requires t in s && IsTable(s[t], Some(tables[|tables| - 1]), self, newHeads)
    ensures Spine(s, self, tables + [t], changed + [newHeads])
  {
    var tables', changed' := tables + [t], changed + [newHeads];
    forall i: nat | i < |tables'| ensures SpineAt(s, self, tables', changed', i) {
      if i < |tables| {
        assert SpineAt(s, self, tables, changed, i);
        assert Below(tables', i) == Below(tables, i);
      }
    }
  }

  lemma OnStays(s: Store, changed: seq<map<string, Id>>, newHeads: map<string, Id>, i: nat, b: string, c: Id)
    requires Growing(s, changed) && i < |changed| && On(s, changed + [newHeads], i, b, c)
    requires KeepsAll(s, HeadsAt(changed, |changed| - 1), newHeads)
    ensures On(s, changed + [newHeads], i + 1, b, c)
  {
    HeadsAtPrefix(changed, newHeads, i);
    assert On(s, changed, i, b, c);
    if i + 1 < |changed| {
      HeadsAtPrefix(changed, newHeads, i + 1);
      assert On(s, changed, i + 1, b, c);
    } else {
      HeadsAtNew(changed, newHeads);
    }
  }

  lemma GrowingLonger(s: Store, changed: seq<map<string, Id>>, newHeads: map<string, Id>)
    requires Growing(s, changed) && changed != []
    requires KeepsAll(s, HeadsAt(changed, |changed| - 1), newHeads)
    ensures Growing(s, changed + [newHeads])
  {
    var changed' := changed + [newHeads];
    forall i: nat, b, c | i + 1 < |changed'| && On(s, changed', i, b, c) ensures On(s, changed', i + 1, b, c) {
      OnStays(s, changed, newHeads, i, b, c);
    }
  }

  lemma WholeLonger(s: Store, changed: seq<map<string, Id>>, newHeads: map<string, Id>)
    requires Whole(s, changed) && changed != []
    requires forall b :: b in newHeads ==> Complete(Delta(s), newHeads[b])
    ensures Whole(s, changed + [newHeads])
  {
    var n, changed' := |changed|, changed + [newHeads];
    forall i: nat, b | i < |changed'| && b in HeadsAt(changed', i) ensures Complete(Delta(s), HeadsAt(changed', i)[b]) {
      if i < n {
        HeadsAtPrefix(changed, newHeads, i);
      } else {
        HeadsAtNew(changed, newHeads);
      }
    }
  }

  /** No claim leaves any branch. */
  ghost predicate KeepsAll(s: Store, heads: map<string, Id>, newHeads: map<string, Id>) {
    forall b, c :: b in heads && Reach(Delta(s), heads[b], c) ==>
      b in heads + newHeads && Reach(Delta(s), (heads + newHeads)[b], c)
  }

  lemma RisingLonger(s: Store, tables: seq<Id>, t: Id)
    requires (forall x :: x in tables ==> x in s) && t in s && Rising(s, tables) && tables != []
    requires s[tables[|tables| - 1]].height < s[t].height
    ensures (forall x :: x in tables + [t] ==> x in s) && Rising(s, tables + [t])
  {
    var more := tables + [t];
    forall i, j | 0 <= i < j < |more| ensures s[more[i]].height < s[more[j]].height {
      assert i < |tables| - 1 ==> s[tables[i]].height < s[tables[|tables| - 1]].height;
    }
  }

  lemma SpineAdvances(
    s: Store, self: Id, head: Id, tables: seq<Id>, changed: seq<map<string, Id>>, newHeads: map<string, Id>, t: Id)
    requires SpineAs(s, self, head, tables, changed)
    requires Advances(s, self, head, HeadsAt(changed, |changed| - 1), newHeads, t)
    ensures SpineAs(s, self, t, tables + [t], changed + [newHeads])
  {
    SpineLonger(s, self, tables, changed, newHeads, t);
    GrowingLonger(s, changed, newHeads);
    RisingLonger(s, tables, t);
    WholeLonger(s, changed, newHeads);
  }

  // ---- Every run ----

  /** What an advance leaves is such a table, whether it was published or found on reopening. */
  lemma FollowerAdvances(
    w: World, s: Store, now: int, head: Id, heads: map<string, Id>, work: seq<Pending>,
    newHeads: map<string, Id>, t: Id)
    requires Follows(w, s, now, head, heads, work, newHeads, t)
    ensures Advances(s, w.self, head, heads, newHeads, t)
  {
    assert Edge(head, EDGE_DIFF, None, None) in EdgeSet(s[t].edges);
    ReachStep(Delta(s), t, head);
    SettledBelow(s, w.extra, now, t, head);
    ReachRefl(Delta(s), t);
    assert Verifier.Lawful(s, w.extra, t);
    assert Edge(head, EDGE_DIFF, None, None) in s[t].edges;
    forall b | b in newHeads ensures Complete(Delta(s), newHeads[b]) {
      assert Edge(newHeads[b], EDGE_BRANCH, Some(b), None) in EdgeSet(s[t].edges);
      ReachStep(Delta(s), t, newHeads[b]);
      SettledBelow(s, w.extra, now, t, newHeads[b]);
      SoundComplete(s, w.extra, newHeads[b]);
    }
    forall b, c | b in heads && Reach(Delta(s), heads[b], c)
      ensures b in heads + newHeads && Reach(Delta(s), (heads + newHeads)[b], c)
    {
      CommitsGrow(s, w.self, heads, work, newHeads, b, c);
    }
  }

  lemma SpineFollows(w: World, s: State, work: seq<Pending>, newHeads: map<string, Id>, t: Id)
    requires SpineTo(s.store, w.self, s.head) && IsOpen(s.store, s.head) && Branches(s.store, s.head) == s.heads
    requires Follows(w, s.store, s.now, s.head, s.heads, work, newHeads, t)
    ensures SpineTo(s.store, w.self, t)
  {
    FollowerAdvances(w, s.store, s.now, s.head, s.heads, work, newHeads, t);
    AdvancedSpine(s.store, w.self, s.head, s.heads, newHeads, t);
  }

  lemma AdvancedSpine(s: Store, self: Id, head: Id, heads: map<string, Id>, newHeads: map<string, Id>, t: Id)
    requires SpineTo(s, self, head) && IsOpen(s, head) && Branches(s, head) == heads
    requires Advances(s, self, head, heads, newHeads, t)
    ensures SpineTo(s, self, t)
  {
    var tables, changed :| SpineAs(s, self, head, tables, changed);
    TopBranches(s, self, head, tables, changed);
    SpineAdvances(s, self, head, tables, changed, newHeads, t);
  }

  lemma TopBranches(s: Store, self: Id, head: Id, tables: seq<Id>, changed: seq<map<string, Id>>)
    requires Spine(s, self, tables, changed) && tables != [] && tables[|tables| - 1] == head && IsOpen(s, head)
    ensures Branches(s, head) == HeadsAt(changed, |changed| - 1)
  {
    SpineBranches(s, self, tables, changed, |tables| - 1);
  }

  lemma StepKeepsSpine(w: World, s: State, a: Action)
    requires Inv(w, s) && Enabled(w, s, a) && SpineTo(s.store, w.self, s.head)
    ensures SpineTo(Apply(w, s, a).store, w.self, Apply(w, s, a).head)
  {
    if a.Publish? {
      SpineFollows(w, s, Work(s.phase.batch), s.phase.newHeads, s.phase.table);
    } else if a.Reopen? {
      ReopenSpine(w, s);
    } else {
      SameHeadSpine(w, s, a);
    }
  }

  lemma ReopenSpine(w: World, s: State)
    requires Anchored(w, s.store, s.slots, s.top, s.at, s.head, s.heads) && SpineTo(s.store, w.self, s.head)
    requires StraysOk(w, s.store, s.slots, s.top, s.at, s.now, s.head, s.heads)
    ensures var h := Bookmarks.HeadAt(s.slots, s.top); h.Some? && SpineTo(s.store, w.self, h.value)
  {
    if s.at < s.top {
      var t := StrayAbove(w, s);
      StraySpine(w, s, t);
    }
  }

  lemma SameHeadSpine(w: World, s: State, a: Action)
    requires Addresses(w.digest) && ContentAddressed(s.store, w.digest) && SpineTo(s.store, w.self, s.head)
    requires Enabled(w, s, a) && !a.Publish? && !a.Reopen?
    ensures SpineTo(Apply(w, s, a).store, w.self, Apply(w, s, a).head)
  {
    SameHead(w, s, a);
    if Puts(a) {
      PutsOne(w, s, a);
      PutSpine(w, s, a.c);
    } else {
      PutsNone(w, s, a);
    }
  }

  /** Only publishing and reopening move the head. */
  lemma SameHead(w: World, s: State, a: Action)
    requires Enabled(w, s, a) && !a.Publish? && !a.Reopen?
    ensures Apply(w, s, a).head == s.head
  {
    if a.Append? {
      AppendOnly(w, s, a.w);
    }
  }

  lemma StraySpine(w: World, s: State, t: Id)
    requires SpineTo(s.store, w.self, s.head) && IsOpen(s.store, s.head) && Branches(s.store, s.head) == s.heads
    requires Successor(w, s.store, s.now, s.head, s.heads, t)
    ensures SpineTo(s.store, w.self, t)
  {
    var work, newHeads :| Follows(w, s.store, s.now, s.head, s.heads, work, newHeads, t);
    SpineFollows(w, s, work, newHeads, t);
  }

  lemma PutSpine(w: World, s: State, c: Claim)
    requires Addresses(w.digest) && ContentAddressed(s.store, w.digest) && SpineTo(s.store, w.self, s.head)
    ensures SpineTo(Put(s.store, w.digest, c), w.self, s.head)
  {
    PutGrows(s.store, w.digest, c);
    AddressedAcyclic(Put(s.store, w.digest, c), w.digest);
    SpineGrows(s.store, Put(s.store, w.digest, c), w.self, s.head);
  }

  lemma NextKeepsSpine(w: World, s: State, s': State)
    requires Progress.Reachable(w, s) && Next(w, s, s') && SpineTo(s.store, w.self, s.head)
    ensures SpineTo(s'.store, w.self, s'.head)
  {
    Progress.ReachableKeeps(w, s);
    var a :| Enabled(w, s, a) && s' == Apply(w, s, a);
    StepKeepsSpine(w, s, a);
  }

  ghost predicate Topped(w: World, s: State) {
    SpineTo(s.store, w.self, s.head)
  }

  lemma TopStays(w: World, run: seq<State>, i: nat)
    requires Run(w, run) && i + 1 < |run| && Topped(w, run[i])
    ensures Topped(w, run[i + 1])
  {
    Progress.RunReaches(w, run, i);
    Progress.NextInRun(w, run, i);
    NextKeepsSpine(w, run[i], run[i + 1]);
  }

  /** In every state of a run from a founding the head tops a spine that rises and grows, so
      what holds of tagged archives holds of the one the Sequencer keeps. */
  lemma {:induction false} RunsKeepSpine(w: World, run: seq<State>, i: nat)
    requires Run(w, run) && i < |run| && Topped(w, run[0])
    ensures Topped(w, run[i])
  {
    if i > 0 {
      RunsKeepSpine(w, run, i - 1);
      TopStays(w, run, i - 1);
    }
  }

  /** A founding leaves such a spine: the empty table, and the one that binds the branch. */
  lemma FoundedSpine(w: World, s: Store, g: Foundings.Genesis, branch: string)
    requires Acyclic(s) && Foundings.Minted(w, s, g, branch)
    ensures SpineTo(s, w.self, g.k1)
  {
    Foundings.MintedSettled(w, s, g, branch);
    var heads: map<string, Id> := map[branch := g.first];
    assert SpineAt(s, w.self, [g.k0], [map[]], 0);
    assert SpineAs(s, w.self, g.k0, [g.k0], [map[]]);
    SoundComplete(s, w.extra, g.first);
    assert g.k0 in Targets(EdgeSet(s[g.k1].edges));
    assert Advances(s, w.self, g.k0, map[], heads, g.k1);
    SpineAdvances(s, w.self, g.k0, [g.k0], [map[]], heads, g.k1);
  }
}
