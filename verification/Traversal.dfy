/** Whole traversals (query_walk.go, query_default.go): the reverse index as the inverted
    closure, steps run one after another, and what a bounded or path-less read answers. */
module Traversal {
  import opened Graphs
  import opened Claims
  import opened Options
  import opened Layers
  import opened Walks

  // ---- Hop bounds and walks ----

  /** From zero or one hop up, a step answers every wanted claim that some walk of an allowed
      length ends at. */
  lemma AnswersAreWalks(w: Setting, frontier: set<Id>, c: Id)
    requires w.step.min <= 1
    ensures Answers(w, frontier, c) <==>
      Wanted(w, c) && exists n: nat :: Allows(w.step, n) && WalkOf(Arcs(w), frontier, c, n)
  {
    var g := Arcs(w);
    AtZero(g, frontier, c);
    if Answers(w, frontier, c) {
      AnswersWalk(w, frontier, c);
    }
    if n: nat :| Allows(w.step, n) && WalkOf(g, frontier, c, n) {
      if n > 0 {
        var d := ArrivesWithin(g, frontier, c, n);
        assert Allows(w.step, d + 1);
      }
    }
  }

  /** Whatever the bounds, an answer lies at the end of a walk they allow. */
  lemma AnswersWalk(w: Setting, frontier: set<Id>, c: Id)
    requires Answers(w, frontier, c)
    ensures exists n: nat :: Allows(w.step, n) && WalkOf(Arcs(w), frontier, c, n)
  {
    var g := Arcs(w);
    if Stays(w, frontier, c) {
      AtZero(g, frontier, c);
      assert Allows(w.step, 0);
    } else {
      var d: nat :| Arrives(g, frontier, c, d) && Allows(w.step, d + 1);
      ArrivalWalks(g, frontier, c, d);
    }
  }

  // ---- A read without a path ----

  const CLOSURE := PathStep([], [], Provenance, 0, 0)

  /** A read with no path answers the frontier's closure, as far as the scope holds it. */
  lemma PathlessIsClosure(w: Setting, frontier: set<Id>, c: Id)
    requires w.step == CLOSURE && c in w.s
    ensures Answers(w, frontier, c) <==> w.admits(c) && Reaches(Delta(w.s), frontier, c)
  {
    AllArcs(w);
    AnswersAreWalks(w, frontier, c);
    if Reaches(Delta(w.s), frontier, c) {
      var f :| f in frontier && Graphs.Reach(Delta(w.s), f, c);
      var n: nat :| ReachIn(Delta(w.s), f, c, n);
      assert Allows(w.step, n) && WalkOf(Arcs(w), frontier, c, n);
    }
    if n: nat :| WalkOf(Arcs(w), frontier, c, n) {
      var f :| f in frontier && ReachIn(Arcs(w), f, c, n);
    }
  }

  lemma AllArcs(w: Setting)
    requires w.step == CLOSURE
    ensures Arcs(w) == Delta(w.s)
  {
    forall x | x in w.s ensures Arcs(w)[x] == Delta(w.s)[x] {
      assert ForwardArcs(w, w.s[x].edges) == Targets(EdgeSet(w.s[x].edges));
    }
  }

  // ---- The reverse index ----

  /** from references k by an edge of that kind, and lies in the closure of root. */
  ghost predicate Refers(s: Store, root: Id, from: Id, kind: string, k: Id) {
    Graphs.Reach(Delta(s), root, from) && References(s, from, kind, k)
  }

  ghost predicate References(s: Store, from: Id, kind: string, k: Id) {
    from in s && exists e :: e in s[from].edges && e.kind == kind && e.reference == k
  }

  ghost predicate Lists(incoming: map<Id, seq<Incoming>>, k: Id, from: Id, kind: string) {
    k in incoming && Incoming(from, kind) in incoming[k]
  }

  ghost predicate Inverts(s: Store, incoming: map<Id, seq<Incoming>>, expanded: set<Id>) {
    forall k, from, kind :: Lists(incoming, k, from, kind) <==> from in expanded && References(s, from, kind, k)
  }

  function Listing(incoming: map<Id, seq<Incoming>>, k: Id, i: Incoming): map<Id, seq<Incoming>> {
    incoming[k := (if k in incoming then incoming[k] else []) + [i]]
  }

  /** The edges of one claim of the sweep: each is listed under its target, and a target not
      seen before is fetched and queued. */
  method InvertOne(s: Store, cur: Id, incoming: map<Id, seq<Incoming>>, seen: set<Id>)
    returns (ok: bool, incoming': map<Id, seq<Incoming>>, seen': set<Id>, more: seq<Id>)
    requires cur in s
    ensures ok ==> forall k, from, kind :: Lists(incoming', k, from, kind) <==>
      Lists(incoming, k, from, kind) || (from == cur && References(s, cur, kind, k))
    ensures ok ==> seen' == seen + Refs(Delta(s), cur)
    ensures ok ==> forall a :: a in more <==> a in Refs(Delta(s), cur) && a !in seen
    ensures ok ==> forall a :: a in more ==> a in s
  {
    ok, incoming', seen', more := true, incoming, seen, [];
    var es := s[cur].edges;
    for i := 0 to |es|
      invariant forall k, from, kind :: Lists(incoming', k, from, kind) <==>
        Lists(incoming, k, from, kind) ||
          (from == cur && exists e :: e in es[..i] && e.kind == kind && e.reference == k)
      invariant seen' == seen + Targets(EdgeSet(es[..i]))
      invariant forall a :: a in more <==> a in Targets(EdgeSet(es[..i])) && a !in seen
      invariant forall a :: a in more ==> a in s
    {
      var k, kind := es[i].reference, es[i].kind;
      NextTargets(es, i);
      ListingMore(incoming', k, Incoming(cur, kind));
      incoming' := Listing(incoming', k, Incoming(cur, kind));
      assert es[..i + 1] == es[..i] + [es[i]];
      if k in seen' {
        continue;
      }
      seen' := seen' + {k};
      if k !in s {
        ok := false;
        return;
      }
      more := more + [k];
    }
    assert es[..|es|] == es;
  }

  lemma NextTargets(es: seq<Edge>, i: nat)
    requires i < |es|
    ensures Targets(EdgeSet(es[..i + 1])) == Targets(EdgeSet(es[..i])) + {es[i].reference}
  {
    assert es[..i + 1] == es[..i] + [es[i]];
    assert EdgeSet(es[..i + 1]) == EdgeSet(es[..i]) + {es[i]};
    assert es[i] in EdgeSet(es[..i + 1]);
    forall r | r in Targets(EdgeSet(es[..i])) ensures r in Targets(EdgeSet(es[..i + 1])) {
      var e :| e in EdgeSet(es[..i]) && e.reference == r;
      assert e in EdgeSet(es[..i + 1]);
    }
  }

  lemma ListingMore(incoming: map<Id, seq<Incoming>>, k: Id, i: Incoming)
    ensures forall x, from, kind :: Lists(Listing(incoming, k, i), x, from, kind) <==>
      Lists(incoming, x, from, kind) || (x == k && i == Incoming(from, kind))
  {
  }

  lemma QueueOnce(g: Graph, root: Id, expanded: set<Id>, queue: seq<Id>, refs: seq<Id>, more: seq<Id>)
    requires Worklist(g, {root}, expanded, queue) && queue != []
    requires forall a :: a in refs <==> Step(g, queue[0], a)
    requires forall a :: a in more <==> a in refs && !Waiting(expanded, queue, a)
    ensures Worklist(g, {root}, expanded + {queue[0]}, queue[1..] + more)
    ensures forall a :: Waiting(expanded + {queue[0]}, queue[1..] + more, a) <==>
      Waiting(expanded, queue, a) || a in refs
  {
    var expanded' := expanded + {queue[0]};
    assert queue == [queue[0]] + queue[1..];
    WorklistExpand(g, {root}, expanded, queue, refs);
    forall a ensures Waiting(expanded', queue[1..] + more, a) <==> Waiting(expanded', queue[1..] + refs, a) {}
    WorklistSame(g, {root}, expanded', queue[1..] + refs, queue[1..] + more);
  }

  /** How the sweep stands: the expanded claims are inverted, and every claim seen is expanded
      or still queued. */
  ghost predicate Sweeping(
    s: Store, root: Id, incoming: map<Id, seq<Incoming>>, seen: set<Id>, queue: seq<Id>, expanded: set<Id>)
  {
    && Worklist(Delta(s), {root}, expanded, queue) && expanded <= s.Keys
    && (forall a :: a in queue ==> a in s)
    && (forall a :: a in seen <==> Waiting(expanded, queue, a))
    && Inverts(s, incoming, expanded)
  }

  lemma SweepDone(s: Store, root: Id, incoming: map<Id, seq<Incoming>>, seen: set<Id>, expanded: set<Id>)
    requires Sweeping(s, root, incoming, seen, [], expanded)
    ensures forall k, from, kind :: Lists(incoming, k, from, kind) <==> Refers(s, root, from, kind, k)
    ensures forall k, i :: k in incoming && i in incoming[k] ==> i.from in s
  {
    WorklistDone(Delta(s), {root}, expanded);
    OneRoot(Delta(s), root);
    forall k, i | k in incoming && i in incoming[k] ensures i.from in s {
      assert Lists(incoming, k, i.from, i.kind);
    }
  }

  /** Fetch and invert the front of the queue. */
  method SweepOne(s: Store, ghost root: Id, incoming: map<Id, seq<Incoming>>, seen: set<Id>, queue: seq<Id>,
      ghost expanded: set<Id>)
    returns (ok: bool, incoming': map<Id, seq<Incoming>>, seen': set<Id>, queue': seq<Id>)
    requires Sweeping(s, root, incoming, seen, queue, expanded) && queue != []
    ensures ok ==> Sweeping(s, root, incoming', seen', queue', expanded + {queue[0]})
    ensures ok && queue[0] in expanded ==> queue' == queue[1..]
  {
    var more;
    ok, incoming', seen', more := InvertOne(s, queue[0], incoming, seen);
    queue' := queue[1..] + more;
    if ok {
      Swept(s, root, incoming, incoming', seen, seen', queue, more, expanded);
    }
  }

  lemma Swept(
    s: Store, root: Id, incoming: map<Id, seq<Incoming>>, incoming': map<Id, seq<Incoming>>, seen: set<Id>,
    seen': set<Id>,
    queue: seq<Id>, more: seq<Id>, expanded: set<Id>)
    requires Sweeping(s, root, incoming, seen, queue, expanded) && queue != []
    requires forall k, from, kind :: Lists(incoming', k, from, kind) <==>
      Lists(incoming, k, from, kind) || (from == queue[0] && References(s, queue[0], kind, k))
    requires seen' == seen + Refs(Delta(s), queue[0])
    requires forall a :: a in more <==> a in Refs(Delta(s), queue[0]) && a !in seen
    requires forall a :: a in more ==> a in s
    ensures Sweeping(s, root, incoming', seen', queue[1..] + more, expanded + {queue[0]})
    ensures queue[0] in expanded ==> more == []
  {
    QueueOnce(Delta(s), root, expanded, queue, Claims.References(s[queue[0]].edges), more);
    if queue[0] in expanded {
      NothingMore(Delta(s), root, expanded, queue, seen, more);
    }
  }

  lemma FirstListed(q: seq<Id>)
    ensures q == [] || exists a :: a in q
  {
    if q != [] {
      assert q[0] in q;
    }
  }

  lemma NothingMore(g: Graph, root: Id, expanded: set<Id>, queue: seq<Id>, seen: set<Id>, more: seq<Id>)
    requires Worklist(g, {root}, expanded, queue) && queue != [] && queue[0] in expanded
    requires forall a :: a in seen <==> Waiting(expanded, queue, a)
    requires forall a :: a in more <==> a in Refs(g, queue[0]) && a !in seen
    ensures more == []
  {
    FirstListed(more);
    forall a ensures a !in more {
      assert Step(g, queue[0], a) ==> Waiting(expanded, queue, a);
    }
  }

  /** buildIncoming: the references of the closure of root, read backwards. */
  method BuildIncoming(s: Store, root: Id) returns (ok: bool, incoming: map<Id, seq<Incoming>>)
    requires root in s
    ensures ok ==> forall k, from, kind :: Lists(incoming, k, from, kind) <==> Refers(s, root, from, kind, k)
    ensures ok ==> forall k, i :: k in incoming && i in incoming[k] ==> i.from in s
  {
    ghost var expanded: set<Id> := {};
    ok, incoming := true, map[];
    var seen, queue := {root}, [root];
    WorklistStart(Delta(s), {root}, queue);
    while queue != []
      invariant Sweeping(s, root, incoming, seen, queue, expanded)
      decreases s.Keys - expanded, |queue|
    {
      var interrupted: bool := *;
      if interrupted {
        ok := false;
        return;
      }
      ghost var was := queue[0];
      ok, incoming, seen, queue := SweepOne(s, root, incoming, seen, queue, expanded);
      if !ok {
        return;
      }
      expanded := expanded + {was};
    }
    SweepDone(s, root, incoming, seen, expanded);
  }

  /** A reverse hop finds exactly the claims of the inverted closure that reference this one by
      a matching edge. */
  lemma ReverseIsInverted(w: Setting, root: Id, x: Id, y: Id)
    requires forall k, from, kind :: Lists(w.incoming, k, from, kind) <==> Refers(w.s, root, from, kind, k)
    ensures y in BackArcs(w, Into(w, x)) <==>
      Graphs.Reach(Delta(w.s), root, y) && y in w.s && x in ForwardArcs(w, w.s[y].edges)
  {
    if y in BackArcs(w, Into(w, x)) {
      var i :| i in Into(w, x) && Matches(w.glob, w.step.edges, i.kind) && i.from == y;
      assert Lists(w.incoming, x, y, i.kind);
    }
    if Graphs.Reach(Delta(w.s), root, y) && y in w.s && x in ForwardArcs(w, w.s[y].edges) {
      var e :| e in w.s[y].edges && Matches(w.glob, w.step.edges, e.kind) && e.reference == x;
      assert Refers(w.s, root, y, e.kind, x);
      assert Lists(w.incoming, x, y, e.kind);
    }
  }

  // ---- Steps one after another ----

  function With(w: Setting, step: PathStep): Setting {
    w.(step := step)
  }

  /** c answers the steps run from the frontier in turn. */
  ghost predicate Through(w: Setting, steps: seq<PathStep>, frontier: set<Id>, c: Id)
    decreases |steps|, 0
  {
    if steps == [] then c in frontier
    else
      var n := |steps| - 1;
      exists mid: set<Id> :: AllThrough(w, steps[..n], frontier, mid) && Answers(With(w, steps[n]), mid, c)
  }

  ghost predicate AllThrough(w: Setting, steps: seq<PathStep>, frontier: set<Id>, all: set<Id>)
    decreases |steps|, 1
  {
    forall x :: x in all <==> Through(w, steps, frontier, x)
  }

  lemma ThroughNext(w: Setting, steps: seq<PathStep>, i: nat, frontier: set<Id>, mid: set<Id>, c: Id)
    requires i < |steps| && AllThrough(w, steps[..i], frontier, mid)
    ensures Through(w, steps[..i + 1], frontier, c) <==> Answers(With(w, steps[i]), mid, c)
  {
    assert steps[..i + 1][..i] == steps[..i] && steps[..i + 1][i] == steps[i];
    if Through(w, steps[..i + 1], frontier, c) {
      var other: set<Id> :| AllThrough(w, steps[..i], frontier, other) && Answers(With(w, steps[i]), other, c);
      assert other == mid;
    }
  }

  /** walkStart on named anchors: each once, in the order given. */
  method StartAt(s: Store, anchors: seq<Option<Id>>) returns (ok: bool, frontier: seq<Id>)
    ensures ok ==> NoRepeat(frontier) && forall c :: c in frontier <==> Some(c) in anchors
    ensures ok ==> forall c :: c in frontier ==> c in s
  {
    ok, frontier := true, [];
    for i := 0 to |anchors|
      invariant NoRepeat(frontier) && forall c :: c in frontier <==> Some(c) in anchors[..i]
      invariant forall c :: c in frontier ==> c in s
    {
      assert anchors[..i + 1] == anchors[..i] + [anchors[i]];
      if anchors[i].None? || anchors[i].value in frontier {
        continue;
      }
      if anchors[i].value !in s {
        ok := false;
        return;
      }
      frontier := frontier + [anchors[i].value];
    }
    assert anchors[..|anchors|] == anchors;
  }

  method Admitted(w: Setting, cs: seq<Id>) returns (out: seq<Id>)
    ensures forall c :: c in out <==> c in cs && w.admits(c)
  {
    out := [];
    for i := 0 to |cs|
      invariant forall c :: c in out <==> c in cs[..i] && w.admits(c)
    {
      assert cs[..i + 1] == cs[..i] + [cs[i]];
      if w.admits(cs[i]) {
        out := out + [cs[i]];
      }
    }
    assert cs[..|cs|] == cs;
  }

  lemma AnswersHeld(w: Setting, frontier: set<Id>, out: seq<Id>)
    requires forall c :: c in out ==> Answers(w, frontier, c)
    ensures forall c :: c in out ==> c in w.s
  {
  }

  function OwnRoutes(frontier: seq<Id>): map<Id, seq<Id>> {
    map c | c in frontier :: [c]
  }

  /** One step of the traversal, from what the steps before it answered. */
  method StepOn(w: Setting, steps: seq<PathStep>, i: nat, from: seq<Id>, routes: map<Id, seq<Id>>,
      ghost frontier: set<Id>)
    returns (ok: bool, reached: seq<Id>, routes': map<Id, seq<Id>>)
    requires i < |steps| && IncomingHeld(w) && RoutesHeld(w, routes) && forall c :: c in from ==> c in w.s
    requires AllThrough(w, steps[..i], frontier, Elements(from))
    ensures forall c :: c in reached ==> c in w.s && Through(w, steps[..i + 1], frontier, c)
    ensures ok ==> AllThrough(w, steps[..i + 1], frontier, Elements(reached))
    ensures RoutesHeld(w, routes')
    ensures ok && w.needPaths && steps[i].min <= 1 && Alone(Elements(from), routes) ==>
      forall c :: c in reached ==> c in routes' && Canonical(With(w, steps[i]), Elements(from), c, routes'[c])
  {
    var v := With(w, steps[i]);
    assert forall x :: Into(v, x) == Into(w, x);
    ok, reached, routes' := QueryWalkStep(v, from, routes);
    AnswersHeld(v, Elements(from), reached);
    forall c ensures Through(w, steps[..i + 1], frontier, c) <==> Answers(v, Elements(from), c) {
      ThroughNext(w, steps, i, frontier, Elements(from), c);
    }
  }

  /** queryTraverse: the answer of all the steps. Cut short in its last step a read keeps part
      of the answer, cut short earlier it has none. */
  method QueryTraverse(w: Setting, steps: seq<PathStep>, frontier: seq<Id>)
    returns (ok: bool, reached: seq<Id>, routes: map<Id, seq<Id>>)
    requires IncomingHeld(w) && forall c :: c in frontier ==> c in w.s
    ensures ok && steps != [] ==> AllThrough(w, steps, Elements(frontier), Elements(reached))
    ensures ok && steps == [] ==> forall c :: c in reached <==> c in frontier && w.admits(c)
    ensures !ok ==> forall c :: c in reached ==> Through(w, steps, Elements(frontier), c)
    ensures ok && |steps| == 1 && steps[0].min <= 1 && w.needPaths ==>
      forall c :: c in reached ==> c in routes && Canonical(With(w, steps[0]), Elements(frontier), c, routes[c])
  {
    ghost var F := Elements(frontier);
    routes, ok := OwnRoutes(frontier), true;
    reached := Admitted(w, frontier);
    if steps == [] {
      return;
    }
    ok, reached, routes := StepOn(w, steps, 0, frontier, routes, F);
    assert steps[..|steps|] == steps;
    var i := 1;
    while ok && i < |steps|
      invariant 1 <= i <= |steps| && RoutesHeld(w, routes)
      invariant forall c :: c in reached ==> c in w.s && Through(w, steps[..i], F, c)
      invariant ok ==> AllThrough(w, steps[..i], F, Elements(reached))
      invariant ok && i == 1 && steps[0].min <= 1 && w.needPaths ==>
        forall c :: c in reached ==> c in routes && Canonical(With(w, steps[0]), F, c, routes[c])
      decreases ok, |steps| - i
    {
      ok, reached, routes := StepOn(w, steps, i, reached, routes, F);
      i := i + 1;
    }
    if i < |steps| {
      reached := [];
    }
  }
}
