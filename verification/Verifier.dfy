/** The closure verifier (verify.go, verify_reference.go): rules judged from a claim and its
    direct references, and a walk that prunes at claims already committed. */
module Verifier {
  import opened Graphs
  import opened Claims
  import opened Options

  // ---- Rules judged from a claim and its direct references ----

  /** Committed height is one above the highest reference, and 0 for an initial claim. A
      deleted reference took its height along, which leaves a lower bound. */
  ghost predicate HeightRule(s: Store, a: Id)
    requires a in s
  {
    var c := s[a];
    && (c.edges == [] ==> c.height == 0)
    && (c.edges != [] ==> c.height > 0)
    && (forall e :: e in c.edges && e.reference in s ==> s[e.reference].height < c.height)
    && (c.edges != [] && (forall e :: e in c.edges ==> e.reference in s) ==>
          exists e :: e in c.edges && s[e.reference].height + 1 == c.height)
  }

  /** A claim is dated no earlier than any claim it references. */
  ghost predicate DateRule(s: Store, a: Id)
    requires a in s
  {
    forall e :: e in s[a].edges && e.reference in s ==> s[e.reference].createdAt <= s[a].createdAt
  }

  /** `extra` stands for the rules read off the record alone. */
  ghost predicate Lawful(s: Store, extra: Claim -> bool, a: Id) {
    a in s && HeightRule(s, a) && DateRule(s, a) && extra(s[a])
  }

  method VerifyHeight(s: Store, a: Id) returns (ok: bool)
    requires a in s
    ensures ok <==> HeightRule(s, a)
  {
    var c := s[a];
    if c.edges == [] {
      return c.height == 0;
    }
    var max, complete := 0, true;
    ghost var top: Option<Edge> := None;
    for i := 0 to |c.edges|
      invariant complete <==> forall k :: 0 <= k < i ==> c.edges[k].reference in s
      invariant forall k :: 0 <= k < i && c.edges[k].reference in s ==> s[c.edges[k].reference].height <= max
      invariant max > 0 || top.Some? ==> top.Some? && top.value in c.edges[..i]
      invariant top.Some? ==> top.value.reference in s && s[top.value.reference].height == max
      invariant i > 0 && complete ==> top.Some?
    {
      var r := c.edges[i].reference;
      assert c.edges[..i + 1] == c.edges[..i] + [c.edges[i]];
      if r !in s {
        complete := false;
      } else {
        if s[r].height > max || top.None? {
          top := if s[r].height >= max then Some(c.edges[i]) else top;
        }
        if s[r].height > max {
          max := s[r].height;
        }
      }
    }
    var want := max + 1;
    ok := if complete then c.height == want else c.height >= want;
    assert forall e :: e in c.edges && e.reference in s ==> s[e.reference].height <= max;
    assert complete <==> forall e :: e in c.edges ==> e.reference in s;
    if top.Some? {
      assert top.value in c.edges && top.value.reference in s;
    }
  }

  method VerifyDates(s: Store, a: Id) returns (ok: bool)
    requires a in s
    ensures ok <==> DateRule(s, a)
  {
    var c := s[a];
    for i := 0 to |c.edges|
      invariant forall k :: 0 <= k < i && c.edges[k].reference in s ==>
        s[c.edges[k].reference].createdAt <= c.createdAt
    {
      var r := c.edges[i].reference;
      if r in s && c.createdAt < s[r].createdAt {
        return false;
      }
    }
    ok := true;
  }

  // ---- The pruned walk ----

  datatype Config = Config(
    maxDepth: nat, maxClaims: nat, createdAfter: Option<int>, stopAfter: nat, trusted: set<Id>)

  datatype Item = Item(id: Id, depth: nat, dated: bool)

  predicate Uncapped(cfg: Config) {
    cfg.maxDepth == 0 && cfg.maxClaims == 0 && cfg.createdAfter.None?
  }

  /** The graph the walk sees: nothing is expanded at a trusted claim. */
  function Pruned(g: Graph, trusted: set<Id>): Graph {
    map a | a in g && a !in trusted :: g[a]
  }

  function Ids(items: seq<Item>): (r: seq<Id>)
    ensures |r| == |items|
    ensures forall i :: 0 <= i < |items| ==> r[i] == items[i].id
  {
    seq(|items|, i requires 0 <= i < |items| => items[i].id)
  }

  function Expansion(c: Claim, depth: nat): (r: seq<Item>)
    ensures forall a :: a in Ids(r) <==> a in Targets(EdgeSet(c.edges))
  {
    var r := seq(|c.edges|, i requires 0 <= i < |c.edges| =>
      Item(c.edges[i].reference, depth + 1, c.edges[i].deleteBy.Some?));
    assert Ids(r) == References(c.edges);
    r
  }

  datatype Run = Run(failures: seq<Id>, passed: nat)

  /** Every failure names a claim the walk was to judge that breaks a rule, or is absent. */
  ghost predicate Justified(
    s: Store, extra: Claim -> bool, trusted: set<Id>, roots: set<Id>, failures: seq<Id>)
  {
    forall a :: a in failures ==> Judgeable(s, trusted, roots, a) && !Lawful(s, extra, a)
  }

  ghost predicate Judgeable(s: Store, trusted: set<Id>, roots: set<Id>, a: Id) {
    a !in trusted && Reaches(Pruned(Delta(s), trusted), roots, a)
  }

  method JudgeClaim(s: Store, extra: Claim -> bool, a: Id) returns (ok: bool)
    requires a in s
    ensures ok <==> Lawful(s, extra, a)
  {
    var h := VerifyHeight(s, a);
    if !h {
      return false;
    }
    var d := VerifyDates(s, a);
    ok := d && extra(s[a]);
  }

  /** What the walk keeps. `full` says that no cap cuts it short. */
  ghost predicate Walking(
    s: Store, extra: Claim -> bool, trusted: set<Id>, start: set<Id>,
    seen: set<Id>, queue: seq<Id>, failures: seq<Id>, full: bool)
  {
    var g := Pruned(Delta(s), trusted);
    && (forall a :: Waiting(seen, queue, a) ==> Reaches(g, start, a))
    && Justified(s, extra, trusted, start, failures)
    && (full ==> Worklist(g, start, seen, queue))
    && (full && failures == [] ==> PassedAll(s, extra, trusted, seen))
  }

  ghost predicate PassedAll(s: Store, extra: Claim -> bool, trusted: set<Id>, seen: set<Id>) {
    forall a :: a in seen && a !in trusted && a in s ==> Lawful(s, extra, a)
  }

  lemma WalkingSkip(
    s: Store, extra: Claim -> bool, trusted: set<Id>, start: set<Id>,
    seen: set<Id>, queue: seq<Id>, failures: seq<Id>, full: bool)
    requires Walking(s, extra, trusted, start, seen, queue, failures, full)
    requires queue != [] && queue[0] in seen
    ensures Walking(s, extra, trusted, start, seen, queue[1..], failures, full)
  {
    forall a | Waiting(seen, queue[1..], a) ensures Waiting(seen, queue, a) {}
    if full {
      WorklistSkip(Pruned(Delta(s), trusted), start, seen, queue);
    }
  }

  /** Visiting the front claim: it is judged, or trusted, or absent, and its references queued. */
  lemma WalkingVisit(
    s: Store, extra: Claim -> bool, trusted: set<Id>, start: set<Id>,
    seen: set<Id>, queue: seq<Id>, more: seq<Id>, failures: seq<Id>, failures': seq<Id>, full: bool)
    requires Walking(s, extra, trusted, start, seen, queue, failures, full) && queue != []
    requires forall a :: a in more ==> Step(Pruned(Delta(s), trusted), queue[0], a)
    requires full ==> forall a :: Step(Pruned(Delta(s), trusted), queue[0], a) ==> a in more
    requires failures' != failures ==>
      failures' == failures + [queue[0]] && queue[0] !in trusted && !Lawful(s, extra, queue[0])
    requires full && failures' == failures && queue[0] !in trusted && queue[0] in s ==> Lawful(s, extra, queue[0])
    ensures Walking(s, extra, trusted, start, seen + {queue[0]}, queue[1..] + more, failures', full)
  {
    var g, x := Pruned(Delta(s), trusted), queue[0];
    assert Waiting(seen, queue, x);
    forall a | Waiting(seen + {x}, queue[1..] + more, a) ensures Reaches(g, start, a) {
      if a in more {
        ReachStep(g, x, a);
        ReachesTrans(g, start, x, a);
      } else {
        assert Waiting(seen, queue, a);
      }
    }
    if full {
      WorklistExpand(g, start, seen, queue, more);
    }
  }

  datatype Visited = Trusted | Absent | Skipped | Judged(ok: bool)

  /** One turn of the walk at a claim not seen before: what became of it, and what to queue. */
  method Visit(s: Store, extra: Claim -> bool, cfg: Config, cur: Item) returns (v: Visited, more: seq<Item>)
    ensures forall a :: a in Ids(more) ==> Step(Pruned(Delta(s), cfg.trusted), cur.id, a)
    ensures Uncapped(cfg) ==> forall a :: Step(Pruned(Delta(s), cfg.trusted), cur.id, a) ==> a in Ids(more)
    ensures v.Absent? ==> cur.id !in s && cur.id !in cfg.trusted
    ensures v.Judged? ==> cur.id in s && cur.id !in cfg.trusted && (v.ok <==> Lawful(s, extra, cur.id))
    ensures Uncapped(cfg) && cur.id !in cfg.trusted && cur.id in s ==> v.Judged?
  {
    more := [];
    if cur.id in cfg.trusted {
      return Trusted, [];
    }
    if cur.id !in s {
      return Absent, [];
    }
    var c := s[cur.id];
    if cfg.createdAfter.Some? && c.createdAt < cfg.createdAfter.value {
      return Skipped, [];
    }
    var ok := JudgeClaim(s, extra, cur.id);
    v := Judged(ok);
    if cfg.maxDepth == 0 || cur.depth < cfg.maxDepth {
      more := Expansion(c, cur.depth);
    }
  }

  function Marks(c: Claim): set<Id> {
    if c.kind == NODE_DELETE then set e | e in c.edges && e.kind == EDGE_DELETE :: e.reference else {}
  }

  lemma NextIds(items: seq<Item>)
    requires items != []
    ensures Ids(items)[0] == items[0].id && Ids(items)[1..] == Ids(items[1..])
  {
  }

  lemma JoinedIds(items: seq<Item>, more: seq<Item>)
    ensures Ids(items) + Ids(more) == Ids(items + more)
  {
  }

  /** Gaps are ids seen that are neither held nor trusted. */
  lemma GapsSeen(gaps: seq<Id>, gaps': seq<Id>, seen: set<Id>, known: set<Id>, id: Id)
    requires Elements(gaps) <= seen - known && (gaps' == gaps || (gaps' == gaps + [id] && id !in known))
    ensures Elements(gaps') <= (seen + {id}) - known
  {
    forall a | a in Elements(gaps') ensures a == id || a in Elements(gaps) {
      assert a in gaps';
    }
  }

  method RunVerification(s: Store, extra: Claim -> bool, roots: seq<Id>, cfg: Config) returns (run: Run)
    ensures Justified(s, extra, cfg.trusted, Elements(roots), run.failures)
    ensures run.failures == [] && Uncapped(cfg) ==>
      forall a :: Judgeable(s, cfg.trusted, Elements(roots), a) && a in s ==> Lawful(s, extra, a)
  {
    ghost var g, start, full := Pruned(Delta(s), cfg.trusted), Elements(roots), Uncapped(cfg);
    run := Run([], 0);
    var seen: set<Id> := {};
    var queue := seq(|roots|, i requires 0 <= i < |roots| => Item(roots[i], 0, false));
    assert Ids(queue) == roots;
    var gaps: seq<Id> := [];
    var marked: set<Id> := {};
    var processed := 0;
    WorklistStart(g, start, Ids(queue));
    while queue != []
      invariant Walking(s, extra, cfg.trusted, start, seen, Ids(queue), run.failures, full)
      invariant Elements(gaps) <= seen - (s.Keys + cfg.trusted)
      decreases Mentioned(g, start) - seen, |queue|
    {
      var cur := queue[0];
      ghost var ids := Ids(queue);
      NextIds(queue);
      queue := queue[1..];
      if cur.id in seen {
        WalkingSkip(s, extra, cfg.trusted, start, seen, ids, run.failures, full);
        continue;
      }
      assert Waiting(seen, ids, cur.id);
      InMentioned(g, start, cur.id);
      var v, more := Visit(s, extra, cfg, cur);
      ghost var failed, missing := run.failures, gaps;
      match v {
        case Judged(true) =>
          run := run.(passed := run.passed + 1);
        case Judged(false) =>
          run := run.(failures := run.failures + [cur.id]);
        case Absent =>
          if !cur.dated {
            gaps := gaps + [cur.id];
          }
        case _ =>
      }
      WalkingVisit(s, extra, cfg.trusted, start, seen, ids, Ids(more), failed, run.failures, full);
      JoinedIds(queue, more);
      GapsSeen(missing, gaps, seen, s.Keys + cfg.trusted, cur.id);
      seen, queue := seen + {cur.id}, queue + more;
      if v.Judged? {
        processed := processed + 1;
        if !v.ok && cfg.stopAfter > 0 && |run.failures| >= cfg.stopAfter {
          return;
        }
        if cfg.maxClaims > 0 && processed >= cfg.maxClaims {
          return;
        }
        marked := marked + Marks(s[cur.id]);
      }
    }
    if full {
      assert Ids(queue) == [];
      WorklistDone(g, start, seen);
    }
    forall a | a in Elements(gaps) ensures a !in s && Judgeable(s, cfg.trusted, start, a) {
      assert Waiting(seen, Ids(queue), a);
    }
    run := SettleGaps(s, extra, cfg.trusted, start, gaps, marked, cfg.stopAfter, run);
  }

  /** Every mark has been seen by now: a gap none explains is data loss. */
  method SettleGaps(
    s: Store, extra: Claim -> bool, ghost trusted: set<Id>, ghost start: set<Id>,
    gaps: seq<Id>, marked: set<Id>, stopAfter: nat, run: Run) returns (r: Run)
    requires Justified(s, extra, trusted, start, run.failures)
    requires forall a :: a in Elements(gaps) ==> a !in s && Judgeable(s, trusted, start, a)
    ensures Justified(s, extra, trusted, start, r.failures)
    ensures r.failures == [] ==> run.failures == [] && Elements(gaps) <= marked
  {
    r := run;
    for i := 0 to |gaps|
      invariant Justified(s, extra, trusted, start, r.failures)
      invariant r.failures == [] ==> run.failures == [] && Elements(gaps[..i]) <= marked
    {
      assert gaps[i] in Elements(gaps);
      assert gaps[..i + 1] == gaps[..i] + [gaps[i]];
      if gaps[i] in marked {
        continue;
      }
      r := r.(failures := r.failures + [gaps[i]]);
      if stopAfter > 0 && |r.failures| >= stopAfter {
        return;
      }
    }
    assert gaps[..|gaps|] == gaps;
  }

  /** Over a complete store a run without caps fails exactly when some claim breaks a rule. */
  lemma VerdictIsExact(s: Store, extra: Claim -> bool, trusted: set<Id>, roots: set<Id>, failures: seq<Id>)
    requires Justified(s, extra, trusted, roots, failures)
    requires failures == [] ==> forall a :: Judgeable(s, trusted, roots, a) && a in s ==> Lawful(s, extra, a)
    requires forall a :: a in roots ==> Complete(Delta(s), a)
    ensures failures == [] <==> forall a :: Judgeable(s, trusted, roots, a) ==> Lawful(s, extra, a)
  {
    forall a | Judgeable(s, trusted, roots, a) ensures a in s {
      var r :| r in roots && Reach(Pruned(Delta(s), trusted), r, a);
      forall x, y | Step(Pruned(Delta(s), trusted), x, y) ensures Reach(Delta(s), x, y) {
        ReachStep(Delta(s), x, y);
      }
      var n: nat :| ReachIn(Pruned(Delta(s), trusted), r, a, n);
      Simulated(Delta(s), Pruned(Delta(s), trusted), r, a, n);
    }
    if failures != [] {
      assert failures[0] in failures;
    }
  }

  // ---- Pruning is sound ----

  /** Everything below a set of claims is held and keeps the rules. */
  ghost predicate Sound(s: Store, extra: Claim -> bool, roots: set<Id>) {
    forall a :: Reaches(Delta(s), roots, a) ==> Lawful(s, extra, a)
  }

  lemma {:induction false} PrunedOrTrusted(g: Graph, trusted: set<Id>, a: Id, b: Id, n: nat)
    requires ReachIn(g, a, b, n)
    ensures Reach(Pruned(g, trusted), a, b) || Reaches(g, trusted, b)
    decreases n
  {
    ReachRefl(Pruned(g, trusted), a);
    if a in trusted {
      assert Reach(g, a, b);
    } else if n > 0 {
      var c :| Step(g, a, c) && ReachIn(g, c, b, n - 1);
      PrunedOrTrusted(g, trusted, c, b, n - 1);
      if Reach(Pruned(g, trusted), c, b) {
        ReachStep(Pruned(g, trusted), a, c);
        ReachTrans(Pruned(g, trusted), a, c, b);
      }
    }
  }

  /** A walk that stopped at committed claims speaks for the whole closure, as long as the
      committed closure is itself sound. */
  lemma PrunedWalkSound(s: Store, extra: Claim -> bool, roots: set<Id>, trusted: set<Id>)
    requires Sound(s, extra, trusted)
    requires forall a :: a in roots ==> Complete(Delta(s), a)
    requires forall a :: Judgeable(s, trusted, roots, a) && a in s ==> Lawful(s, extra, a)
    ensures Sound(s, extra, roots)
  {
    var g := Delta(s);
    forall a | Reaches(g, roots, a) ensures Lawful(s, extra, a) {
      var r :| r in roots && Reach(g, r, a);
      var n: nat :| ReachIn(g, r, a, n);
      PrunedOrTrusted(g, trusted, r, a, n);
      ReachRefl(g, a);
      if a in trusted {
        assert Reaches(g, trusted, a);
      }
    }
  }

  // ---- What the local rules add up to ----

  lemma {:induction false} HeightBoundsWalks(s: Store, extra: Claim -> bool, a: Id, b: Id, n: nat)
    requires Sound(s, extra, {a}) && ReachIn(Delta(s), a, b, n)
    ensures a in s && n <= s[a].height
    decreases n
  {
    ReachRefl(Delta(s), a);
    assert Lawful(s, extra, a);
    if n > 0 {
      var c :| Step(Delta(s), a, c) && ReachIn(Delta(s), c, b, n - 1);
      SoundBelow(s, extra, a, c);
      HeightBoundsWalks(s, extra, c, b, n - 1);
    }
  }

  lemma SoundBelow(s: Store, extra: Claim -> bool, a: Id, c: Id)
    requires Sound(s, extra, {a}) && (Reach(Delta(s), a, c) || Step(Delta(s), a, c))
    ensures Sound(s, extra, {c})
  {
    if Step(Delta(s), a, c) { ReachStep(Delta(s), a, c); }
    forall b | Reaches(Delta(s), {c}, b) ensures Lawful(s, extra, b) {
      ReachTrans(Delta(s), a, c, b);
      assert Reaches(Delta(s), {a}, b);
    }
  }

  lemma {:induction false} HeightIsWalked(s: Store, extra: Claim -> bool, a: Id) returns (b: Id)
    requires Sound(s, extra, {a})
    ensures a in s && ReachIn(Delta(s), a, b, s[a].height)
    decreases if a in s then s[a].height else 0
  {
    ReachRefl(Delta(s), a);
    assert Lawful(s, extra, a);
    b := a;
    if s[a].height > 0 {
      forall e | e in s[a].edges ensures e.reference in s {
        assert Step(Delta(s), a, e.reference);
        ReachStep(Delta(s), a, e.reference);
        assert Lawful(s, extra, e.reference);
      }
      var e :| e in s[a].edges && s[e.reference].height + 1 == s[a].height;
      assert Step(Delta(s), a, e.reference);
      SoundBelow(s, extra, a, e.reference);
      b := HeightIsWalked(s, extra, e.reference);
    }
  }

  /** In a sound closure the committed height is the length of the longest reference walk. */
  lemma HeightIsLongestWalk(s: Store, extra: Claim -> bool, a: Id)
    requires Sound(s, extra, {a})
    ensures a in s
    ensures exists b :: ReachIn(Delta(s), a, b, s[a].height)
    ensures forall b, m: nat :: ReachIn(Delta(s), a, b, m) ==> m <= s[a].height
  {
    var far := HeightIsWalked(s, extra, a);
    forall b, m: nat | ReachIn(Delta(s), a, b, m) ensures m <= s[a].height {
      HeightBoundsWalks(s, extra, a, b, m);
    }
  }

  /** Dates never run backwards along a walk. */
  lemma {:induction false} DatesNeverDecrease(s: Store, extra: Claim -> bool, a: Id, b: Id, n: nat)
    requires Sound(s, extra, {a}) && ReachIn(Delta(s), a, b, n)
    ensures a in s && b in s && s[b].createdAt <= s[a].createdAt
    decreases n
  {
    ReachRefl(Delta(s), a);
    assert Lawful(s, extra, a);
    if n > 0 {
      var c :| Step(Delta(s), a, c) && ReachIn(Delta(s), c, b, n - 1);
      SoundBelow(s, extra, a, c);
      DatesNeverDecrease(s, extra, c, b, n - 1);
      assert Lawful(s, extra, c) by { ReachRefl(Delta(s), c); }
    }
  }
}
