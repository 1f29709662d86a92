/** The branch-tag index (universe_default_tagger.go) and the reads that trust it
    (query_default.go): each claim is stamped, per branch, with the height of the first table
    whose branch reaches it, so one comparison answers membership at any snapshot. */
module Tagger {
  import opened Graphs
  import opened Claims
  import opened Options
  import opened Diffs
  import opened Folds
  import opened Verifier
  import opened Sequencers
  import Membership

  // The branch tags of each claim: by branch, the height it was stamped with.
  type Tags = map<Id, map<string, nat>>

  predicate Tagged(t: Tags, b: string, c: Id) {
    c in t && b in t[c]
  }

  function Members(t: Tags, b: string): set<Id> {
    set c | c in t && b in t[c]
  }

  function Stamp(t: Tags, b: string, c: Id, v: nat): Tags {
    t[c := (if c in t then t[c] else map[])[b := v]]
  }

  /** t' is t with branch b stamped v on the claims added, which carried no such tag. */
  ghost predicate Stamped(t: Tags, t': Tags, b: string, v: nat, added: set<Id>) {
    && (forall c, n :: Tagged(t', n, c) <==> Tagged(t, n, c) || (n == b && c in added))
    && (forall c, n :: Tagged(t, n, c) ==> t'[c][n] == t[c][n])
    && (forall c :: c in added ==> !Tagged(t, b, c) && t'[c][b] == v)
  }

  lemma StampOne(t: Tags, t': Tags, b: string, v: nat, added: set<Id>, c: Id)
    requires Stamped(t, t', b, v, added) && !Tagged(t', b, c)
    ensures Stamped(t, Stamp(t', b, c, v), b, v, added + {c})
  {
    var t'' := Stamp(t', b, c, v);
    forall d, n ensures Tagged(t'', n, d) <==> Tagged(t', n, d) || (n == b && d == c) {}
  }

  // ---- One branch: the frontier loop ----

  method Fresh(refs: seq<Id>, next: seq<Id>) returns (more: seq<Id>)
    ensures forall a :: a in next + more <==> a in next || a in refs
  {
    more := [];
    for i := 0 to |refs|
      invariant forall a :: a in next + more <==> a in next || a in refs[..i]
    {
      assert refs[..i + 1] == refs[..i] + [refs[i]];
      if refs[i] !in next + more {
        more := more + [refs[i]];
      }
    }
    assert refs[..|refs|] == refs;
  }

  /** A claim tagged already is done with: the walk does not expand it. */
  lemma LevelSkips(g: Graph, head: Id, seen: set<Id>, frontier: seq<Id>, i: nat, next: seq<Id>)
    requires i < |frontier| && Worklist(g, {head}, seen, frontier[i..] + next)
    requires frontier[i] in seen || Refs(g, frontier[i]) == {}
    ensures Worklist(g, {head}, seen + {frontier[i]}, frontier[i + 1..] + next)
  {
    var queue := frontier[i..] + next;
    assert queue[0] == frontier[i] && queue[1..] == frontier[i + 1..] + next;
    if frontier[i] in seen {
      WorklistSkip(g, {head}, seen, queue);
      assert seen + {frontier[i]} == seen;
    } else {
      WorklistExpand(g, {head}, seen, queue, []);
      assert queue[1..] + [] == queue[1..];
    }
  }

  lemma LevelExpands(
    g: Graph, head: Id, seen: set<Id>, frontier: seq<Id>, i: nat, next: seq<Id>, refs: seq<Id>, more: seq<Id>)
    requires i < |frontier| && Worklist(g, {head}, seen, frontier[i..] + next)
    requires forall b :: b in refs <==> Step(g, frontier[i], b)
    requires forall a :: a in next + more <==> a in next || a in refs
    ensures Worklist(g, {head}, seen + {frontier[i]}, frontier[i + 1..] + (next + more))
  {
    var queue := frontier[i..] + next;
    assert queue[0] == frontier[i] && queue[1..] == frontier[i + 1..] + next;
    WorklistExpand(g, {head}, seen, queue, refs);
    WorklistSame(g, {head}, seen + {frontier[i]}, queue[1..] + refs, frontier[i + 1..] + (next + more));
  }

  /** A walk from head that stops at known claims meets no gap. */
  ghost predicate WalkHeld(s: Store, known: set<Id>, head: Id) {
    forall c :: Reach(Pruned(Delta(s), known), head, c) ==> c in s
  }

  lemma AddedNext(seen: set<Id>, known: set<Id>, c: Id)
    ensures (seen + {c}) - known == if c in known then seen - known else (seen - known) + {c}
    ensures c in seen - known ==> (seen - known) + {c} == seen - known
  {
  }

  /** One level of tagBranchClosure: stamp what carries no tag yet and gather its references. */
  method TagLevel(
    s: Store, stored: Tags, b: string, v: nat, frontier: seq<Id>, tags: Tags,
    ghost head: Id, ghost known: set<Id>, ghost seen: set<Id>, ghost base: Tags, ghost added: set<Id>)
    returns (ok: bool, out: Tags, next: seq<Id>, ghost seen': set<Id>, ghost added': set<Id>)
    requires known == Members(stored, b) + Members(base, b) && added == seen - known
    requires Stamped(base, tags, b, v, added) && seen <= s.Keys
    requires Worklist(Pruned(Delta(s), known), {head}, seen, frontier)
    ensures ok ==> added' == seen' - known && Stamped(base, out, b, v, added') && seen <= seen' <= s.Keys
    ensures ok ==> Worklist(Pruned(Delta(s), known), {head}, seen', next)
    ensures ok && seen' == seen ==> next == []
    ensures !ok ==> !WalkHeld(s, known, head)
  {
    ghost var g := Pruned(Delta(s), known);
    ok, out, next, seen', added' := true, tags, [], seen, added;
    assert frontier[0..] + [] == frontier;
    for i := 0 to |frontier|
      invariant added' == seen' - known && Stamped(base, out, b, v, added') && seen <= seen' <= s.Keys
      invariant Worklist(g, {head}, seen', frontier[i..] + next)
      invariant seen' == seen ==> next == []
    {
      var c := frontier[i];
      assert c == (frontier[i..] + next)[0];
      if c !in s {
        assert Reaches(g, {head}, c);
        ok := false;
        return;
      }
      if Tagged(stored, b, c) || Tagged(out, b, c) {
        assert c in known || c in added';
        LevelSkips(g, head, seen', frontier, i, next);
        AddedNext(seen', known, c);
        seen' := seen' + {c};
        continue;
      }
      assert c !in known && c !in seen';
      StampOne(base, out, b, v, added', c);
      out := Stamp(out, b, c, v);
      var refs := References(s[c].edges);
      var more := Fresh(refs, next);
      LevelExpands(g, head, seen', frontier, i, next, refs, more);
      AddedNext(seen', known, c);
      seen', added' := seen' + {c}, added' + {c};
      next := next + more;
    }
    assert frontier[|frontier|..] + next == next;
  }

  /** tagBranchClosure: walk the closure, stamping every claim the branch's tag has not reached
      yet and pruning where it has. It stamps what it can reach past the tagged claims, and
      fails exactly where that walk meets a gap. */
  method TagBranchClosure(s: Store, stored: Tags, b: string, head: Id, v: nat, tags: Tags)
    returns (ok: bool, out: Tags, ghost added: set<Id>)
    ensures ok <==> WalkHeld(s, Members(stored, b) + Members(tags, b), head)
    ensures ok ==> Stamped(tags, out, b, v, added)
    ensures ok ==> forall c :: c in added <==> Judgeable(s, Members(stored, b) + Members(tags, b), {head}, c)
  {
    ghost var known := Members(stored, b) + Members(tags, b);
    ghost var g := Pruned(Delta(s), known);
    ghost var seen: set<Id> := {};
    ok, out, added := true, tags, {};
    var frontier := [head];
    WorklistStart(g, {head}, frontier);
    while frontier != []
      invariant added == seen - known && Stamped(tags, out, b, v, added) && seen <= s.Keys
      invariant Worklist(g, {head}, seen, frontier)
      decreases s.Keys - seen, |frontier|
    {
      ghost var before := seen;
      ok, out, frontier, seen, added := TagLevel(s, stored, b, v, frontier, out, head, known, seen, tags, added);
      if !ok {
        return;
      }
    }
    WorklistDone(g, {head}, seen);
    forall c | Reach(g, head, c) ensures c in s {
      assert Reaches(g, {head}, c);
    }
  }

  /** Past a reference-closed set of tagged claims the walk misses nothing. */
  lemma PruningMissesNothing(s: Store, known: set<Id>, head: Id, c: Id)
    requires Closed(Delta(s), known)
    ensures c in known || Judgeable(s, known, {head}, c) <==> c in known || Reach(Delta(s), head, c)
  {
    var g := Delta(s);
    if Judgeable(s, known, {head}, c) {
      forall x, y | Step(Pruned(g, known), x, y) ensures Reach(g, x, y) {
        ReachStep(g, x, y);
      }
      var n: nat :| ReachIn(Pruned(g, known), head, c, n);
      Simulated(g, Pruned(g, known), head, c, n);
    }
    if Reach(g, head, c) && c !in known {
      var n: nat :| ReachIn(g, head, c, n);
      PrunedOrTrusted(g, known, head, c, n);
      if Reaches(g, known, c) {
        var k :| k in known && Reach(g, k, c);
        ClosedHolds(g, known, k, c);
      }
    }
  }

  /** A tag left without those below it is never mended: a later run prunes there. So a
      revision's tags have to land together. */
  lemma LoneTagStrands(s: Store, known: set<Id>, head: Id, c: Id)
    requires head in known && c !in known
    ensures !Judgeable(s, known, {head}, c)
  {
    var g := Pruned(Delta(s), known);
    assert Closed(g, {head});
    if Reach(g, head, c) {
      ClosedHolds(g, {head}, head, c);
    }
  }

  /** From every head, a walk that stops at known claims finds all that is not known. */
  ghost predicate PruningIsSafe(s: Store, known: set<Id>) {
    forall head: Id, c: Id :: c in known || (Judgeable(s, known, {head}, c) <==> Reach(Delta(s), head, c))
  }

  /** So the tags may be pruned at exactly if they are closed under reference. */
  lemma PruningIsSafeExactly(s: Store, known: set<Id>)
    ensures PruningIsSafe(s, known) <==> Closed(Delta(s), known)
  {
    if Closed(Delta(s), known) {
      forall head: Id, c: Id ensures c in known || (Judgeable(s, known, {head}, c) <==> Reach(Delta(s), head, c)) {
        PruningMissesNothing(s, known, head, c);
      }
    }
    if PruningIsSafe(s, known) {
      forall a, b | a in known && Step(Delta(s), a, b) ensures b in known {
        ReachStep(Delta(s), a, b);
        if b !in known {
          LoneTagStrands(s, known, a, b);
        }
      }
    }
  }

  // ---- The spine ----

  /** The tables from the first on, each a diff over the one before restating `changed`. */
  ghost predicate Spine(s: Store, self: Id, tables: seq<Id>, changed: seq<map<string, Id>>) {
    && Acyclic(s) && |changed| == |tables| && (forall t :: t in tables ==> t in s)
    && forall i: nat :: i < |tables| ==> SpineAt(s, self, tables, changed, i)
  }

  ghost predicate SpineAt(s: Store, self: Id, tables: seq<Id>, changed: seq<map<string, Id>>, i: nat)
    requires i < |tables| == |changed|
  {
    tables[i] in s && IsTable(s[tables[i]], Below(tables, i), self, changed[i])
  }

  function Below(tables: seq<Id>, i: nat): Option<Id>
    requires i < |tables|
  {
    if i == 0 then None else Some(tables[i - 1])
  }

  function HeadsAt(changed: seq<map<string, Id>>, i: nat): map<string, Id>
    requires i < |changed|
  {
    if i == 0 then changed[0] else HeadsAt(changed, i - 1) + changed[i]
  }

  lemma {:induction false} SpineBranches(s: Store, self: Id, tables: seq<Id>, changed: seq<map<string, Id>>, i: nat)
    requires Spine(s, self, tables, changed) && i < |tables|
    ensures IsOpen(s, tables[i]) && Branches(s, tables[i]) == HeadsAt(changed, i)
  {
    assert SpineAt(s, self, tables, changed, i);
    if i == 0 {
      FirstTable(s, tables[0], self, changed[0]);
    } else {
      SpineBranches(s, self, tables, changed, i - 1);
      TableRestates(s, tables[i], tables[i - 1], self, changed[i]);
    }
  }

  /** Claim c is on branch b of the archive at revision i. */
  ghost predicate On(s: Store, changed: seq<map<string, Id>>, i: nat, b: string, c: Id)
    requires i < |changed|
  {
    b in HeadsAt(changed, i) && Reach(Delta(s), HeadsAt(changed, i)[b], c)
  }

  ghost predicate Joined(s: Store, changed: seq<map<string, Id>>, i: nat, b: string, c: Id)
    requires i < |changed|
  {
    On(s, changed, i, b, c) && forall j: nat :: j < i ==> !On(s, changed, j, b, c)
  }

  ghost predicate OnBefore(s: Store, changed: seq<map<string, Id>>, m: nat, b: string, c: Id)
    requires m <= |changed|
  {
    exists i: nat :: i < m && On(s, changed, i, b, c)
  }

  /** The tags speak for the first m revisions: a claim is tagged with a branch once some
      revision's branch reaches it, with the height of the first table that does. */
  ghost predicate TagsExact(s: Store, tables: seq<Id>, changed: seq<map<string, Id>>, m: nat, tags: Tags)
    requires |changed| == |tables| && m <= |tables| && forall t :: t in tables ==> t in s
  {
    && (forall b, c :: Tagged(tags, b, c) <==> OnBefore(s, changed, m, b, c))
    && (forall b, c, i: nat :: i < m && Joined(s, changed, i, b, c) ==>
          Tagged(tags, b, c) && tags[c][b] == s[tables[i]].height)
  }

  lemma {:induction false} FirstOn(s: Store, changed: seq<map<string, Id>>, i: nat, b: string, c: Id) returns (j: nat)
    requires i < |changed| && On(s, changed, i, b, c)
    ensures j <= i && Joined(s, changed, j, b, c)
  {
    if k: nat :| k < i && On(s, changed, k, b, c) {
      j := FirstOn(s, changed, k, b, c);
    } else {
      j := i;
    }
  }

  lemma MembersClosed(s: Store, tables: seq<Id>, changed: seq<map<string, Id>>, m: nat, tags: Tags, b: string)
    requires |changed| == |tables| && m <= |tables| && forall t :: t in tables ==> t in s
    requires TagsExact(s, tables, changed, m, tags)
    ensures Closed(Delta(s), Members(tags, b))
  {
    var g := Delta(s);
    forall x, y | x in Members(tags, b) && Step(g, x, y) ensures y in Members(tags, b) {
      assert Tagged(tags, b, x);
      var i: nat :| i < m && On(s, changed, i, b, x);
      ReachStep(g, x, y);
      ReachTrans(g, HeadsAt(changed, i)[b], x, y);
      assert On(s, changed, i, b, y);
      assert Tagged(tags, b, y);
    }
  }

  // ---- One revision ----

  ghost predicate Restates(s: Store, stored: Tags, es: seq<Edge>, b: string, c: Id) {
    exists e :: e in es && e.kind == EDGE_BRANCH && e.name == Some(b) &&
      Judgeable(s, Members(stored, b), {e.reference}, c)
  }

  /** What one revision flushes: v on every claim its restated branches reach past the tags. */
  ghost predicate RevisionTags(s: Store, stored: Tags, es: seq<Edge>, v: nat, out: Tags) {
    && (forall b, c :: Tagged(out, b, c) <==> Restates(s, stored, es, b, c))
    && (forall b, c :: Tagged(out, b, c) ==> out[c][b] == v)
  }

  method TagRevision(s: Store, stored: Tags, table: Id) returns (ok: bool, out: Tags)
    requires table in s && DistinctNames(s[table].edges)
    ensures ok ==> RevisionTags(s, stored, s[table].edges, s[table].height, out)
  {
    var es, v := s[table].edges, s[table].height;
    ok, out := true, map[];
    for i := 0 to |es|
      invariant RevisionTags(s, stored, es[..i], v, out)
    {
      assert es[..i + 1] == es[..i] + [es[i]];
      if es[i].kind == EDGE_BRANCH {
        if es[i].name.None? {
          ok := false;
          return;
        }
        var b := es[i].name.value;
        NotRestatedYet(s, stored, es, i, b, out, v);
        ghost var was, added := out, {};
        ok, out, added := TagBranchClosure(s, stored, b, es[i].reference, v, out);
        if !ok {
          return;
        }
        NextRestated(s, stored, es, i, v, was, out, added);
      } else {
        forall b, c ensures Restates(s, stored, es[..i + 1], b, c) <==> Restates(s, stored, es[..i], b, c) {
          RestatesMore(s, stored, es, i, b, c);
        }
      }
    }
    assert es[..|es|] == es;
  }

  lemma RestatesMore(s: Store, stored: Tags, es: seq<Edge>, i: nat, b: string, c: Id)
    requires i < |es|
    ensures Restates(s, stored, es[..i + 1], b, c) <==>
      (|| Restates(s, stored, es[..i], b, c)
       || (es[i].kind == EDGE_BRANCH && es[i].name == Some(b) &&
           Judgeable(s, Members(stored, b), {es[i].reference}, c)))
  {
    assert es[..i + 1] == es[..i] + [es[i]];
  }

  lemma NotRestatedYet(s: Store, stored: Tags, es: seq<Edge>, i: nat, b: string, out: Tags, v: nat)
    requires i < |es| && DistinctNames(es) && es[i].name == Some(b)
    requires RevisionTags(s, stored, es[..i], v, out)
    ensures Members(out, b) == {}
  {
    forall e | e in es[..i] ensures e.name != Some(b) {
      var j :| 0 <= j < i && es[j] == e;
      assert es[j].name.Some? ==> es[j].name != es[i].name;
    }
    forall c ensures c !in Members(out, b) {
      assert Tagged(out, b, c) <==> Restates(s, stored, es[..i], b, c);
    }
  }

  lemma NextRestated(s: Store, stored: Tags, es: seq<Edge>, i: nat, v: nat, was: Tags, out: Tags, added: set<Id>)
    requires i < |es| && es[i].kind == EDGE_BRANCH && es[i].name.Some?
    requires RevisionTags(s, stored, es[..i], v, was) && Members(was, es[i].name.value) == {}
    requires Stamped(was, out, es[i].name.value, v, added)
    requires forall c :: c in added <==> Judgeable(s, Members(stored, es[i].name.value) + {}, {es[i].reference}, c)
    ensures RevisionTags(s, stored, es[..i + 1], v, out)
  {
    var b := es[i].name.value;
    assert Members(stored, b) + {} == Members(stored, b);
    forall n, c ensures Tagged(out, n, c) <==> Restates(s, stored, es[..i + 1], n, c) {
      RestatesMore(s, stored, es, i, n, c);
    }
    forall n, c | Tagged(out, n, c) ensures out[c][n] == v {
      if Tagged(was, n, c) {
        assert was[c][n] == v;
      }
    }
  }

  /** SetClaimsTags without a clear: the new pairs are laid over what each claim carries. */
  function Flush(stored: Tags, more: Tags): Tags {
    map c | c in stored.Keys + more.Keys ::
      (if c in stored then stored[c] else map[]) + (if c in more then more[c] else map[])
  }

  lemma FlushTags(stored: Tags, more: Tags, b: string, c: Id)
    ensures Tagged(Flush(stored, more), b, c) <==> Tagged(stored, b, c) || Tagged(more, b, c)
    ensures Tagged(more, b, c) ==> Flush(stored, more)[c][b] == more[c][b]
    ensures Tagged(stored, b, c) && !Tagged(more, b, c) ==> Flush(stored, more)[c][b] == stored[c][b]
  {
  }

  function Later(m: nat, i: nat): nat {
    if m < i then i else m
  }

  lemma OnLater(s: Store, changed: seq<map<string, Id>>, i: nat, b: string, c: Id)
    requires i < |changed|
    ensures b in changed[i] ==> (On(s, changed, i, b, c) <==> Reach(Delta(s), changed[i][b], c))
    ensures b !in changed[i] ==> (On(s, changed, i, b, c) <==> i > 0 && On(s, changed, i - 1, b, c))
  {
  }

  lemma OnBeforeMore(s: Store, changed: seq<map<string, Id>>, m: nat, b: string, c: Id)
    requires m < |changed|
    ensures OnBefore(s, changed, m + 1, b, c) <==> OnBefore(s, changed, m, b, c) || On(s, changed, m, b, c)
  {
  }

  lemma RestatesIs(
    s: Store, self: Id, tables: seq<Id>, changed: seq<map<string, Id>>, i: nat, stored: Tags, b: string, c: Id)
    requires Spine(s, self, tables, changed) && i < |tables|
    ensures Restates(s, stored, s[tables[i]].edges, b, c) <==>
      b in changed[i] && Judgeable(s, Members(stored, b), {changed[i][b]}, c)
  {
    assert SpineAt(s, self, tables, changed, i);
    var es := s[tables[i]].edges;
    if b in changed[i] {
      assert Edge(changed[i][b], EDGE_BRANCH, Some(b), None) in EdgeSet(es);
    }
    forall e | e in es ensures e.name == Some(b) ==> b in changed[i] && e.reference == changed[i][b] {
      TableEdge(es, Below(tables, i), self, changed[i], e);
    }
  }

  /** Whom a revision's flush leaves tagged: exactly those tagged before or on it. */
  lemma RevisionMembers(
    s: Store, self: Id, tables: seq<Id>, changed: seq<map<string, Id>>, m: nat, i: nat, tags: Tags, out: Tags,
    b: string, c: Id)
    requires Spine(s, self, tables, changed) && i <= m <= |tables| && i < |tables|
    requires TagsExact(s, tables, changed, m, tags)
    requires RevisionTags(s, tags, s[tables[i]].edges, s[tables[i]].height, out)
    ensures Tagged(out, b, c) ==> !Tagged(tags, b, c) && i == m && On(s, changed, i, b, c)
    ensures Tagged(tags, b, c) || Tagged(out, b, c) <==> OnBefore(s, changed, Later(m, i + 1), b, c)
  {
    RestatesIs(s, self, tables, changed, i, tags, b, c);
    MembersClosed(s, tables, changed, m, tags, b);
    OnLater(s, changed, i, b, c);
    if b in changed[i] {
      PruningMissesNothing(s, Members(tags, b), changed[i][b], c);
    }
    if i == m {
      OnBeforeMore(s, changed, m, b, c);
    }
  }

  lemma RevisionExact(
    s: Store, self: Id, tables: seq<Id>, changed: seq<map<string, Id>>, m: nat, i: nat, tags: Tags, out: Tags)
    requires Spine(s, self, tables, changed) && i <= m <= |tables| && i < |tables|
    requires TagsExact(s, tables, changed, m, tags)
    requires RevisionTags(s, tags, s[tables[i]].edges, s[tables[i]].height, out)
    ensures TagsExact(s, tables, changed, Later(m, i + 1), Flush(tags, out))
  {
    forall b, c ensures Tagged(Flush(tags, out), b, c) <==> OnBefore(s, changed, Later(m, i + 1), b, c) {
      FlushTags(tags, out, b, c);
      RevisionMembers(s, self, tables, changed, m, i, tags, out, b, c);
    }
    forall b, c, j: nat | j < Later(m, i + 1) && Joined(s, changed, j, b, c)
      ensures Tagged(Flush(tags, out), b, c) && Flush(tags, out)[c][b] == s[tables[j]].height
    {
      FlushTags(tags, out, b, c);
      RevisionMembers(s, self, tables, changed, m, i, tags, out, b, c);
      JoinedValue(s, self, tables, changed, m, i, tags, out, b, c, j);
    }
  }

  lemma JoinedValue(
    s: Store, self: Id, tables: seq<Id>, changed: seq<map<string, Id>>, m: nat, i: nat, tags: Tags, out: Tags,
    b: string, c: Id, j: nat)
    requires Spine(s, self, tables, changed) && i <= m <= |tables| && i < |tables|
    requires TagsExact(s, tables, changed, m, tags)
    requires RevisionTags(s, tags, s[tables[i]].edges, s[tables[i]].height, out)
    requires j < Later(m, i + 1) && Joined(s, changed, j, b, c)
    requires Tagged(out, b, c) ==> !Tagged(tags, b, c) && i == m
    requires Tagged(tags, b, c) || Tagged(out, b, c) <==> OnBefore(s, changed, Later(m, i + 1), b, c)
    ensures Tagged(out, b, c) ==> out[c][b] == s[tables[j]].height
    ensures Tagged(tags, b, c) ==> tags[c][b] == s[tables[j]].height
    ensures Tagged(out, b, c) || Tagged(tags, b, c)
  {
    assert OnBefore(s, changed, Later(m, i + 1), b, c);
    if Tagged(tags, b, c) {
      var k: nat :| k < m && On(s, changed, k, b, c);
      assert j <= k;
    } else {
      assert !OnBefore(s, changed, m, b, c);
      assert j == m == i;
    }
  }

  // ---- The whole spine ----

  lemma {:induction false} SpineRises(s: Store, self: Id, tables: seq<Id>, changed: seq<map<string, Id>>, i: nat,
      j: nat)
    requires Spine(s, self, tables, changed) && i < j < |tables|
    ensures Rank(s)(tables[i]) < Rank(s)(tables[j])
  {
    assert SpineAt(s, self, tables, changed, j);
    assert Edge(tables[j - 1], EDGE_DIFF, None, None) in EdgeSet(s[tables[j]].edges);
    if i < j - 1 {
      SpineRises(s, self, tables, changed, i, j - 1);
    }
  }

  lemma SpineDistinct(s: Store, self: Id, tables: seq<Id>, changed: seq<map<string, Id>>, i: nat, j: nat)
    requires Spine(s, self, tables, changed) && i < |tables| && j < |tables| && tables[i] == tables[j]
    ensures i == j
  {
    if i < j {
      SpineRises(s, self, tables, changed, i, j);
    } else if j < i {
      SpineRises(s, self, tables, changed, j, i);
    }
  }

  lemma SpineDiff(s: Store, self: Id, tables: seq<Id>, changed: seq<map<string, Id>>, i: nat)
    requires Spine(s, self, tables, changed) && i < |tables|
    ensures DiffOf(s[tables[i]].edges) == Below(tables, i) && DistinctNames(s[tables[i]].edges)
  {
    assert SpineAt(s, self, tables, changed, i);
    TableDiff(s[tables[i]].edges, Below(tables, i), self, changed[i]);
  }

  class Index {
    var tags: Tags
    var revs: map<Id, nat>

    constructor ()
      ensures tags == map[] && revs == map[]
    {
      tags, revs := map[], map[];
    }

    /** The index speaks for the first m revisions of the spine. */
    ghost predicate Indexes(s: Store, self: Id, tables: seq<Id>, changed: seq<map<string, Id>>, m: nat)
      reads this
    {
      && Spine(s, self, tables, changed) && m <= |tables|
      && TagsExact(s, tables, changed, m, tags)
      && RevsOk(tables, m, revs)
    }

    /** Descend from the head to the root, or to the first table a run has marked. */
    method Descend(s: Store, head: Id, retagAll: bool,
      ghost self: Id, ghost tables: seq<Id>, ghost changed: seq<map<string, Id>>, ghost m: nat, ghost n: nat)
      returns (ok: bool, spine: seq<Id>, base: nat)
      requires Indexes(s, self, tables, changed, m) && n < |tables| && tables[n] == head
      ensures ok ==> base <= m
      ensures ok && spine == [] ==> n < m
      ensures ok && spine != [] ==> |spine| == n + 1 - base
      ensures ok ==> forall k: nat :: k < |spine| ==> spine[k] == tables[n - k]
    {
      ok, spine, base := true, [], 0;
      var id := Some(head);
      ghost var at := n + 1;
      while id.Some?
        invariant 0 <= at <= n + 1 && |spine| == n + 1 - at
        invariant id == if at == 0 then None else Some(tables[at - 1])
        invariant forall k: nat :: k < |spine| ==> spine[k] == tables[n - k]
        decreases at
      {
        if id.value !in s {
          ok := false;
          return;
        }
        if id.value in revs && !retagAll {
          base := revs[id.value] + 1;
          return;
        }
        SpineDiff(s, self, tables, changed, at - 1);
        spine := spine + [id.value];
        id := DiffOf(s[id.value].edges);
        at := at - 1;
      }
    }

    /** Stamp one revision. The tags and the mark that it is done land in one flush. */
    method TagOne(s: Store, bt: Id, revision: nat,
      ghost self: Id, ghost tables: seq<Id>, ghost changed: seq<map<string, Id>>, ghost m: nat) returns (ok: bool)
      requires Indexes(s, self, tables, changed, m) && revision <= m && revision < |tables| && bt == tables[revision]
      modifies this
      ensures ok ==> Indexes(s, self, tables, changed, Later(m, revision + 1))
      ensures !ok ==> tags == old(tags) && revs == old(revs)
    {
      SpineDiff(s, self, tables, changed, revision);
      var out;
      ok, out := TagRevision(s, tags, bt);
      if !ok {
        return;
      }
      ok := *;
      if ok {
        RevisionExact(s, self, tables, changed, m, revision, tags, out);
        MarkRevision(s, self, tables, changed, m, revision, revs);
        tags, revs := Flush(tags, out), revs[bt := revision];
      }
    }

    /** The untagged spine, oldest to newest. */
    method TagRevisions(s: Store, spine: seq<Id>, base: nat,
      ghost self: Id, ghost tables: seq<Id>, ghost changed: seq<map<string, Id>>, ghost m: nat)
      returns (ok: bool, ghost m': nat)
      requires Indexes(s, self, tables, changed, m) && base <= m && base + |spine| <= |tables|
      requires forall k: nat :: k < |spine| ==> spine[k] == tables[base + |spine| - 1 - k]
      modifies this
      ensures m <= m' <= Later(m, base + |spine|) && Indexes(s, self, tables, changed, m')
      ensures ok ==> m' == Later(m, base + |spine|)
    {
      ok, m' := true, m;
      var i, revision := |spine| - 1, base;
      while i >= 0
        invariant -1 <= i < |spine| && revision == base + |spine| - 1 - i
        invariant m' == Later(m, revision) && Indexes(s, self, tables, changed, m')
        decreases i
      {
        assert spine[i] == tables[revision];
        ok := TagOne(s, spine[i], revision, self, tables, changed, m');
        if !ok {
          return;
        }
        m' := Later(m', revision + 1);
        i, revision := i - 1, revision + 1;
      }
    }

    /** TagArchive: stamp the revisions the index does not speak for yet, oldest first. Run
        again, resumed after a failure, or told to retag everything, it ends with the tags of
        the whole spine below the head, and where it speaks for the head already none change. */
    method TagArchive(s: Store, head: Id, retagAll: bool,
      ghost self: Id, ghost tables: seq<Id>, ghost changed: seq<map<string, Id>>, ghost m: nat, ghost n: nat)
      returns (ok: bool, ghost m': nat)
      requires Indexes(s, self, tables, changed, m) && n < |tables| && tables[n] == head
      modifies this
      ensures m <= m' <= Later(m, n + 1) && Indexes(s, self, tables, changed, m')
      ensures ok ==> m' == Later(m, n + 1)
      ensures n < m ==> SameTags(old(tags), tags)
    {
      m' := m;
      var spine, base;
      ok, spine, base := Descend(s, head, retagAll, self, tables, changed, m, n);
      if !ok || spine == [] {
        return;
      }
      ok, m' := TagRevisions(s, spine, base, self, tables, changed, m);
      if n < m {
        ExactTagsAgree(s, tables, changed, m, old(tags), tags);
      }
    }
  }

  ghost predicate SameTags(t: Tags, t': Tags) {
    forall b, c :: (Tagged(t, b, c) <==> Tagged(t', b, c)) && (Tagged(t, b, c) ==> t[c][b] == t'[c][b])
  }

  lemma ExactTagsAgree(s: Store, tables: seq<Id>, changed: seq<map<string, Id>>, m: nat, t: Tags, t': Tags)
    requires |changed| == |tables| && m <= |tables| && forall k :: k in tables ==> k in s
    requires TagsExact(s, tables, changed, m, t) && TagsExact(s, tables, changed, m, t')
    ensures SameTags(t, t')
  {
    forall b, c | Tagged(t, b, c) ensures t[c][b] == t'[c][b] {
      var i: nat :| i < m && On(s, changed, i, b, c);
      var j := FirstOn(s, changed, i, b, c);
    }
  }

  ghost predicate RevsOk(tables: seq<Id>, m: nat, revs: map<Id, nat>)
    requires m <= |tables|
  {
    forall i: nat :: i < |tables| ==> (tables[i] in revs <==> i < m) && (i < m ==> revs[tables[i]] == i)
  }

  lemma MarkRevision(
    s: Store, self: Id, tables: seq<Id>, changed: seq<map<string, Id>>, m: nat, i: nat, revs: map<Id, nat>)
    requires Spine(s, self, tables, changed) && i <= m <= |tables| && i < |tables| && RevsOk(tables, m, revs)
    ensures RevsOk(tables, Later(m, i + 1), revs[tables[i] := i])
  {
    forall j: nat | j < |tables| && tables[j] == tables[i] ensures j == i {
      SpineDistinct(s, self, tables, changed, i, j);
    }
  }

  // ---- Reading by tag ----

  /** Every branch keeps its claims from one table to the next. */
  ghost predicate Growing(s: Store, changed: seq<map<string, Id>>) {
    forall i: nat, b, c :: i + 1 < |changed| && On(s, changed, i, b, c) ==> On(s, changed, i + 1, b, c)
  }

  ghost predicate Rising(s: Store, tables: seq<Id>)
    requires forall t :: t in tables ==> t in s
  {
    forall i, j :: 0 <= i < j < |tables| ==> s[tables[i]].height < s[tables[j]].height
  }

  lemma {:induction false} StaysOn(s: Store, changed: seq<map<string, Id>>, i: nat, j: nat, b: string, c: Id)
    requires Growing(s, changed) && i <= j < |changed| && On(s, changed, i, b, c)
    ensures On(s, changed, j, b, c)
  {
    if i < j {
      StaysOn(s, changed, i, j - 1, b, c);
    }
  }

  /** The tag of a claim is at most a table's height exactly when the claim is on the branch at
      that table's snapshot. A tag read without its height overreaches by the rest. */
  lemma TagIsPointInTime(
    s: Store, self: Id, tables: seq<Id>, changed: seq<map<string, Id>>, m: nat, tags: Tags, i: nat, b: string, c: Id)
    requires Spine(s, self, tables, changed) && m <= |tables| && TagsExact(s, tables, changed, m, tags)
    requires Growing(s, changed) && Rising(s, tables) && i < |tables|
    requires Tagged(tags, b, c)
    ensures tags[c][b] <= s[tables[i]].height <==> On(s, changed, i, b, c)
  {
    var k: nat :| k < m && On(s, changed, k, b, c);
    var j := FirstOn(s, changed, k, b, c);
    if j <= i {
      StaysOn(s, changed, j, i, b, c);
    }
  }

  /** Once a snapshot's own head carries its branch's tag, tags decide the whole scope, even
      where the index stops short of that snapshot. */
  lemma TaggedHeadDecides(
    s: Store, self: Id, tables: seq<Id>, changed: seq<map<string, Id>>, m: nat, tags: Tags, i: nat, b: string, c: Id)
    requires Spine(s, self, tables, changed) && m <= |tables| && TagsExact(s, tables, changed, m, tags)
    requires Growing(s, changed) && Rising(s, tables) && i < |tables|
    requires b in HeadsAt(changed, i) && Tagged(tags, b, HeadsAt(changed, i)[b])
    ensures Tagged(tags, b, c) && tags[c][b] <= s[tables[i]].height <==> On(s, changed, i, b, c)
  {
    var head := HeadsAt(changed, i)[b];
    if On(s, changed, i, b, c) {
      var k: nat :| k < m && On(s, changed, k, b, head);
      ReachTrans(Delta(s), HeadsAt(changed, k)[b], head, c);
      assert On(s, changed, k, b, c);
    }
    if Tagged(tags, b, c) {
      TagIsPointInTime(s, self, tables, changed, m, tags, i, b, c);
    }
  }

  /** Tables that publish commits grow every branch. */
  lemma CommitsGrow(s: Store, self: Id, before: map<string, Id>, work: seq<Pending>, newHeads: map<string, Id>,
      b: string, c: Id)
    requires newHeads.Keys <= Touched(work) && FoldedAll(s, self, before, ByBranch(work), before + newHeads)
    requires b in before && Reach(Delta(s), before[b], c)
    ensures b in before + newHeads && Reach(Delta(s), (before + newHeads)[b], c)
  {
    if b in newHeads {
      assert b in ByBranch(work);
      FoldLosesNothing(s, self, Some(before[b]), Membership.Named(ByBranch(work)[b]), newHeads[b]);
      assert Reaches(Delta(s), Optional(Some(before[b])), c);
      assert Covered(Delta(s), Some(before[b]), Membership.Named(ByBranch(work)[b]), c);
    }
  }

  datatype Scope = Scope(head: Option<Id>, branch: string, height: nat)

  datatype Confinement = Unconfined | ByTag(branch: string, height: nat) | ByMembers(members: set<Id>)

  predicate Admits(conf: Confinement, tags: Tags, c: Id) {
    match conf
    case Unconfined => true
    case ByTag(b, height) => Tagged(tags, b, c) && tags[c][b] <= height
    case ByMembers(members) => c in members
  }

  const BRANCH_UNIVERSE := "$universe"
  const BRANCH_ARCHIVE := "$archive"

  /** confine: by tag where the scope's head carries its branch's tag, else by sweeping. Both
      tactics admit exactly the scope's closure. */
  method Confine(s: Store, index: Index, keepsTags: bool, scope: Scope, key: Edge -> nat,
    ghost self: Id, ghost tables: seq<Id>, ghost changed: seq<map<string, Id>>, ghost m: nat, ghost i: nat)
    returns (conf: Option<Confinement>)
    requires index.Indexes(s, self, tables, changed, m) && Growing(s, changed) && Rising(s, tables)
    requires DiffsDistinct(s)
    requires (scope.head.Some? && scope.branch !in {"", BRANCH_UNIVERSE, BRANCH_ARCHIVE}) ==>
      && i < |tables| && scope.height == s[tables[i]].height
      && scope.branch in HeadsAt(changed, i) && scope.head.value == HeadsAt(changed, i)[scope.branch]
    ensures conf.Some? && scope.head.None? ==> conf.value == Unconfined
    ensures conf.Some? && scope.head.Some? ==>
      forall c :: Admits(conf.value, index.tags, c) <==> Reach(Delta(s), scope.head.value, c)
    ensures scope.head.Some? && Complete(Delta(s), scope.head.value) ==> conf.Some?
  {
    if scope.head.None? {
      return Some(Unconfined);
    }
    var named := scope.branch != "" && scope.branch != BRANCH_UNIVERSE && scope.branch != BRANCH_ARCHIVE;
    if named && keepsTags && Tagged(index.tags, scope.branch, scope.head.value) {
      forall c ensures Tagged(index.tags, scope.branch, c) && index.tags[c][scope.branch] <= scope.height <==>
        Reach(Delta(s), scope.head.value, c)
      {
        TaggedHeadDecides(s, self, tables, changed, m, index.tags, i, scope.branch, c);
      }
      return Some(ByTag(scope.branch, scope.height));
    }
    var members := Membership.Confine(s, scope.head.value, key);
    Membership.ConfinementIsClosure(s, scope.head.value);
    if members.None? {
      return None;
    }
    conf := Some(ByMembers(members.value));
  }
}
