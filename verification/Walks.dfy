/** The reference traversal (query_walk.go): one path step walked level by level, collecting
    what its filters admit and keeping each claim's canonical route. */
module Walks {
  import opened Graphs
  import opened Claims
  import opened Options
  import opened Layers

  datatype Direction = Provenance | Uses | Connections

  // max 0 means no upper bound on the hops.
  datatype PathStep = PathStep(edges: seq<string>, nodes: seq<string>, dir: Direction, min: nat, max: nat)

  // One entry of the reverse index: who references a claim, by an edge of which type.
  datatype Incoming = Incoming(from: Id, kind: string)

  /** What one step reads: `s` holds the claims as a materialised read presents them, `admits`
      is the scope's membership test, `glob` matches a type against one pattern. */
  datatype Setting = Setting(
    s: Store, incoming: map<Id, seq<Incoming>>, glob: (string, string) -> bool, step: PathStep,
    admits: Id -> bool, needPaths: bool)

  // ---- Type patterns ----

  predicate Negative(p: string) {
    p != "" && p[0] == '-'
  }

  function Pattern(p: string): string {
    if Negative(p) then p[1..] else p
  }

  /** No excluding pattern matches, and a positive one does unless there is none. */
  ghost predicate Matches(glob: (string, string) -> bool, patterns: seq<string>, typ: string) {
    && (forall p :: p in patterns && Negative(p) ==> !glob(Pattern(p), typ))
    && ((forall p :: p in patterns ==> Negative(p)) ||
        exists p :: p in patterns && !Negative(p) && glob(Pattern(p), typ))
  }

  method MatchTypeList(glob: (string, string) -> bool, patterns: seq<string>, typ: string) returns (ok: bool)
    ensures ok <==> Matches(glob, patterns, typ)
  {
    var hasPositive, matchedPositive := false, false;
    for i := 0 to |patterns|
      invariant forall p :: p in patterns[..i] && Negative(p) ==> !glob(Pattern(p), typ)
      invariant hasPositive <==> exists p :: p in patterns[..i] && !Negative(p)
      invariant matchedPositive <==> exists p :: p in patterns[..i] && !Negative(p) && glob(Pattern(p), typ)
    {
      assert patterns[..i + 1] == patterns[..i] + [patterns[i]];
      var hit := glob(Pattern(patterns[i]), typ);
      if Negative(patterns[i]) {
        if hit {
          return false;
        }
      } else {
        hasPositive := true;
        if hit {
          matchedPositive := true;
        }
      }
    }
    assert patterns[..|patterns|] == patterns;
    ok := !hasPositive || matchedPositive;
  }

  // ---- The step relation ----

  predicate GoesForward(dir: Direction) {
    dir != Uses
  }

  predicate GoesBack(dir: Direction) {
    dir != Provenance
  }

  ghost function ForwardArcs(w: Setting, es: seq<Edge>): set<Id> {
    set e | e in es && Matches(w.glob, w.step.edges, e.kind) :: e.reference
  }

  ghost function BackArcs(w: Setting, ins: seq<Incoming>): set<Id> {
    set i | i in ins && Matches(w.glob, w.step.edges, i.kind) :: i.from
  }

  function Into(w: Setting, x: Id): seq<Incoming> {
    if x in w.incoming then w.incoming[x] else []
  }

  /** One hop of the step, in whichever direction it goes. */
  ghost function Arcs(w: Setting): (g: Graph)
    ensures g.Keys == w.s.Keys
  {
    map x | x in w.s ::
      (if GoesForward(w.step.dir) then ForwardArcs(w, w.s[x].edges) else {}) +
      (if GoesBack(w.step.dir) then BackArcs(w, Into(w, x)) else {})
  }

  ghost predicate Wanted(w: Setting, c: Id) {
    w.admits(c) && c in w.s && Matches(w.glob, w.step.nodes, w.s[c].kind)
  }

  predicate Allows(step: PathStep, n: nat) {
    step.min <= n && (step.max == 0 || n <= step.max)
  }

  /** The answer of a step from the frontier, through hop h: claims some walk arrives at from
      a claim at its distance, within the hop bounds. */
  ghost predicate Answer(w: Setting, frontier: set<Id>, h: nat, c: Id) {
    Wanted(w, c) &&
    ((c in frontier && w.step.min == 0) ||
      exists d: nat :: d < h && Arrives(Arcs(w), frontier, c, d) && w.step.min <= d + 1)
  }

  ghost predicate Answers(w: Setting, frontier: set<Id>, c: Id) {
    Wanted(w, c) &&
    ((c in frontier && w.step.min == 0) || exists d: nat :: Arrives(Arcs(w), frontier, c, d) && Allows(w.step, d + 1))
  }

  // ---- Collecting ----

  datatype Found = Found(collected: set<Id>, out: seq<Id>)

  ghost predicate NoRepeat(q: seq<Id>) {
    forall i, j :: 0 <= i < j < |q| ==> q[i] != q[j]
  }

  ghost predicate Listed(f: Found) {
    NoRepeat(f.out) && forall c :: c in f.out <==> c in f.collected
  }

  method Reach(w: Setting, f: Found, c: Id, hop: nat) returns (f': Found)
    requires c in w.s && Listed(f)
    ensures Listed(f') && forall x :: x in f'.collected <==>
      x in f.collected || (x == c && w.step.min <= hop && Wanted(w, c))
  {
    f' := f;
    if hop < w.step.min || c in f.collected || !w.admits(c) {
      return;
    }
    var fits := MatchTypeList(w.glob, w.step.nodes, w.s[c].kind);
    if fits {
      f' := Found(f.collected + {c}, f.out + [c]);
    }
  }

  // ---- Routes ----

  function PlaceOf(w: Setting): Id -> Place {
    (c: Id) => if c in w.s then (w.s[c].createdAt, c) else (0, c)
  }

  predicate LessRoute(place: Id -> Place, a: seq<Id>, b: seq<Id>) {
    |a| < |b| || (|a| == |b| && Lexless(place, a, b))
  }

  lemma NextPlace(place: Id -> Place, a: seq<Id>, b: seq<Id>, i: nat)
    requires |a| == |b| && i < |a|
    ensures Lexless(place, a[i..], b[i..]) <==>
      Before(place(a[i]), place(b[i])) || (place(a[i]) == place(b[i]) && Lexless(place, a[i + 1..], b[i + 1..]))
  {
    assert a[i..][1..] == a[i + 1..] && b[i..][1..] == b[i + 1..];
  }

  method CompareRoutes(w: Setting, a: seq<Id>, b: seq<Id>) returns (less: bool)
    requires forall c :: c in a || c in b ==> c in w.s
    ensures less <==> LessRoute(PlaceOf(w), a, b)
  {
    if |a| != |b| {
      return |a| < |b|;
    }
    var i := 0;
    assert a[0..] == a && b[0..] == b;
    while i < |a|
      invariant 0 <= i <= |a|
      invariant Lexless(PlaceOf(w), a, b) <==> Lexless(PlaceOf(w), a[i..], b[i..])
    {
      NextPlace(PlaceOf(w), a, b, i);
      assert a[i] in a && b[i] in b;
      var ta, tb := w.s[a[i]].createdAt, w.s[b[i]].createdAt;
      if ta != tb {
        return ta < tb;
      }
      if a[i] != b[i] {
        return a[i] < b[i];
      }
      i := i + 1;
    }
    less := false;
  }

  lemma LessRouteTransitive(place: Id -> Place, a: seq<Id>, b: seq<Id>, c: seq<Id>)
    requires LessRoute(place, a, b) && !LessRoute(place, c, b)
    ensures !LessRoute(place, c, a)
  {
    if |a| == |b| == |c| {
      LexAsymmetric(place, a, b);
      LexTransitive(place, a, b, c);
    }
  }

  lemma LessRouteIrreflexive(place: Id -> Place, a: seq<Id>)
    ensures !LessRoute(place, a, a)
  {
    LexIrreflexive(place, a);
  }

  function Overlaid(routes: map<Id, seq<Id>>, best: map<Id, seq<Id>>): map<Id, seq<Id>> {
    routes + best
  }

  // ---- One level ----

  datatype Cands = Cands(best: map<Id, seq<Id>>, order: seq<Id>)

  type Pairs = set<(Id, Id)>

  /** The route a parent offers its child. Nothing is kept when no routes are asked for. */
  function Offer(w: Setting, routes: map<Id, seq<Id>>, p: Id, k: Id): seq<Id> {
    if w.needPaths then (if p in routes then routes[p] else []) + [k] else []
  }

  ghost predicate HasParent(seen: Pairs, k: Id) {
    exists p :: (p, k) in seen
  }

  /** The candidates of a level once the arcs of `seen` were considered: a child is one unless
      an earlier level settled its route, and the first of the routes offered stands. */
  ghost predicate CandsOk(w: Setting, cands: Cands, fixed: set<Id>, routes: map<Id, seq<Id>>, seen: Pairs) {
    && NoRepeat(cands.order) && (forall k :: k in cands.order <==> k in cands.best)
    && (forall k :: k in cands.best <==> k !in fixed && HasParent(seen, k))
    && (forall k :: k in cands.best ==> OfferedBest(w, cands.best[k], routes, seen, k))
  }

  ghost predicate OfferedBest(w: Setting, best: seq<Id>, routes: map<Id, seq<Id>>, seen: Pairs, k: Id)
  {
    && (exists p :: (p, k) in seen && best == Offer(w, routes, p, k))
    && (forall p :: (p, k) in seen ==> !LessRoute(PlaceOf(w), Offer(w, routes, p, k), best))
  }

  ghost predicate RoutesHeld(w: Setting, routes: map<Id, seq<Id>>) {
    forall p :: p in routes ==> forall c :: c in routes[p] ==> c in w.s
  }

  lemma OfferWins(w: Setting, best: seq<Id>, routes: map<Id, seq<Id>>, seen: Pairs, p: Id, k: Id)
    requires OfferedBest(w, best, routes, seen, k) && LessRoute(PlaceOf(w), Offer(w, routes, p, k), best)
    ensures OfferedBest(w, Offer(w, routes, p, k), routes, seen + {(p, k)}, k)
  {
    var offer := Offer(w, routes, p, k);
    assert (p, k) in seen + {(p, k)};
    forall q | (q, k) in seen + {(p, k)} ensures !LessRoute(PlaceOf(w), Offer(w, routes, q, k), offer) {
      if q == p {
        LessRouteIrreflexive(PlaceOf(w), offer);
      } else {
        LessRouteTransitive(PlaceOf(w), offer, best, Offer(w, routes, q, k));
      }
    }
  }

  lemma OfferLoses(w: Setting, best: seq<Id>, routes: map<Id, seq<Id>>, seen: Pairs, p: Id, k: Id)
    requires OfferedBest(w, best, routes, seen, k) && !LessRoute(PlaceOf(w), Offer(w, routes, p, k), best)
    ensures OfferedBest(w, best, routes, seen + {(p, k)}, k)
  {
    var q :| (q, k) in seen && best == Offer(w, routes, q, k);
    assert (q, k) in seen + {(p, k)};
  }

  lemma OfferFirst(w: Setting, routes: map<Id, seq<Id>>, seen: Pairs, p: Id, k: Id)
    requires !HasParent(seen, k)
    ensures OfferedBest(w, Offer(w, routes, p, k), routes, seen + {(p, k)}, k)
  {
    assert (p, k) in seen + {(p, k)};
    LessRouteIrreflexive(PlaceOf(w), Offer(w, routes, p, k));
  }

  lemma ParentsMore(seen: Pairs, p: Id, k: Id, x: Id)
    ensures HasParent(seen + {(p, k)}, x) <==> x == k || HasParent(seen, x)
  {
    assert (p, k) in seen + {(p, k)};
    if q :| (q, x) in seen {
      assert (q, x) in seen + {(p, k)};
    }
  }

  /** Recording what happens to child k leaves the other candidates as they were. */
  lemma OthersStand(w: Setting, cands: Cands, cands': Cands, fixed: set<Id>, routes: map<Id, seq<Id>>, seen: Pairs,
      p: Id, k: Id)
    requires CandsOk(w, cands, fixed, routes, seen)
    requires NoRepeat(cands'.order) && forall x :: x in cands'.order <==> x in cands'.best
    requires forall x :: x != k ==>
      (x in cands'.best <==> x in cands.best) && (x in cands.best ==> cands'.best[x] == cands.best[x])
    requires k in cands'.best <==> k !in fixed
    requires k in cands'.best ==> OfferedBest(w, cands'.best[k], routes, seen + {(p, k)}, k)
    ensures CandsOk(w, cands', fixed, routes, seen + {(p, k)})
  {
    var seen' := seen + {(p, k)};
    forall x ensures HasParent(seen', x) <==> x == k || HasParent(seen, x) {
      ParentsMore(seen, p, k, x);
    }
    forall x | x in cands'.best && x != k ensures OfferedBest(w, cands'.best[x], routes, seen', x) {
      OtherStands(w, cands.best[x], routes, seen, p, k, x);
    }
  }

  lemma OtherStands(w: Setting, best: seq<Id>, routes: map<Id, seq<Id>>, seen: Pairs, p: Id, k: Id, x: Id)
    requires x != k && OfferedBest(w, best, routes, seen, x)
    ensures OfferedBest(w, best, routes, seen + {(p, k)}, x)
  {
    var q :| (q, x) in seen && best == Offer(w, routes, q, x);
    assert (q, x) in seen + {(p, k)};
  }

  /** consider: the arrival is recorded first, then the route offered. */
  method Consider(w: Setting, f: Found, cands: Cands, fixed: set<Id>, routes: map<Id, seq<Id>>, cur: Id, child: Id,
      hop: nat, ghost seen: Pairs) returns (f': Found, cands': Cands)
    requires child in w.s && RoutesHeld(w, routes) && Listed(f)
    requires CandsOk(w, cands, fixed, routes, seen)
    ensures CandsOk(w, cands', fixed, routes, seen + {(cur, child)})
    ensures Listed(f') && forall x :: x in f'.collected <==>
      x in f.collected || (x == child && w.step.min <= hop + 1 && Wanted(w, child))
  {
    f' := Reach(w, f, child, hop + 1);
    cands' := cands;
    if child in fixed {
      OthersStand(w, cands, cands', fixed, routes, seen, cur, child);
      return;
    }
    var route := Offer(w, routes, cur, child);
    if child !in cands.best {
      OfferFirst(w, routes, seen, cur, child);
      cands' := Cands(cands.best[child := route], cands.order + [child]);
    } else {
      var less := false;
      if w.needPaths {
        BestHeld(w, cands, fixed, routes, seen, child);
        less := CompareRoutes(w, route, cands.best[child]);
      }
      if less {
        OfferWins(w, cands.best[child], routes, seen, cur, child);
        cands' := cands.(best := cands.best[child := route]);
      } else {
        EmptyIsNotLess(w, cands, fixed, routes, seen, child);
        OfferLoses(w, cands.best[child], routes, seen, cur, child);
      }
    }
    OthersStand(w, cands, cands', fixed, routes, seen, cur, child);
  }

  lemma BestHeld(w: Setting, cands: Cands, fixed: set<Id>, routes: map<Id, seq<Id>>, seen: Pairs, k: Id)
    requires CandsOk(w, cands, fixed, routes, seen) && RoutesHeld(w, routes) && k in cands.best && k in w.s &&
      w.needPaths
    ensures forall c :: c in cands.best[k] ==> c in w.s
  {
    assert OfferedBest(w, cands.best[k], routes, seen, k);
    var p :| (p, k) in seen && cands.best[k] == Offer(w, routes, p, k);
  }

  lemma EmptyIsNotLess(w: Setting, cands: Cands, fixed: set<Id>, routes: map<Id, seq<Id>>, seen: Pairs, k: Id)
    requires CandsOk(w, cands, fixed, routes, seen) && k in cands.best
    ensures !w.needPaths ==> !LessRoute(PlaceOf(w), [], cands.best[k])
  {
    assert OfferedBest(w, cands.best[k], routes, seen, k);
  }

  // ---- Expanding a level ----

  /** What a level has collected: its base, and every wanted claim one of the arcs arrives at. */
  ghost predicate CollectedBy(w: Setting, f: Found, base: set<Id>, hop: nat, seen: Pairs) {
    Listed(f) && forall x :: x in f.collected <==>
      x in base || (w.step.min <= hop + 1 && Wanted(w, x) && HasParent(seen, x))
  }

  ghost predicate LevelOk(w: Setting, f: Found, cands: Cands, fixed: set<Id>, routes: map<Id, seq<Id>>,
      base: set<Id>, hop: nat, seen: Pairs) {
    && CandsOk(w, cands, fixed, routes, seen) && CollectedBy(w, f, base, hop, seen)
    && forall pk :: pk in seen ==> pk.1 in w.s
  }

  method ConsiderArc(w: Setting, f: Found, cands: Cands, fixed: set<Id>, routes: map<Id, seq<Id>>, cur: Id,
      child: Id, hop: nat, ghost base: set<Id>, ghost seen: Pairs) returns (f': Found, cands': Cands)
    requires child in w.s && RoutesHeld(w, routes) && LevelOk(w, f, cands, fixed, routes, base, hop, seen)
    ensures LevelOk(w, f', cands', fixed, routes, base, hop, seen + {(cur, child)})
  {
    f', cands' := Consider(w, f, cands, fixed, routes, cur, child, hop, seen);
    forall x ensures HasParent(seen + {(cur, child)}, x) <==> x == child || HasParent(seen, x) {
      ParentsMore(seen, cur, child, x);
    }
  }

  function Fan(cur: Id, children: set<Id>): Pairs {
    set k | k in children :: (cur, k)
  }

  lemma ForwardMore(w: Setting, es: seq<Edge>, i: nat)
    requires i < |es|
    ensures ForwardArcs(w, es[..i + 1]) ==
      ForwardArcs(w, es[..i]) + if Matches(w.glob, w.step.edges, es[i].kind) then {es[i].reference} else {}
  {
    assert es[..i + 1] == es[..i] + [es[i]];
  }

  lemma BackMore(w: Setting, ins: seq<Incoming>, i: nat)
    requires i < |ins|
    ensures BackArcs(w, ins[..i + 1]) ==
      BackArcs(w, ins[..i]) + if Matches(w.glob, w.step.edges, ins[i].kind) then {ins[i].from} else {}
  {
    assert ins[..i + 1] == ins[..i] + [ins[i]];
  }

  lemma FanMore(cur: Id, children: set<Id>, k: Id)
    ensures Fan(cur, children + {k}) == Fan(cur, children) + {(cur, k)}
  {
  }

  /** The edges of cur, each fetched before it is followed. */
  method ExpandForward(w: Setting, f: Found, cands: Cands, fixed: set<Id>, routes: map<Id, seq<Id>>, cur: Id, hop: nat,
    ghost base: set<Id>, ghost seen: Pairs) returns (ok: bool, f': Found, cands': Cands, ghost arcs: set<Id>)
    requires cur in w.s && RoutesHeld(w, routes) && LevelOk(w, f, cands, fixed, routes, base, hop, seen)
    ensures LevelOk(w, f', cands', fixed, routes, base, hop, seen + Fan(cur, arcs))
    ensures arcs <= ForwardArcs(w, w.s[cur].edges)
    ensures ok ==> arcs == ForwardArcs(w, w.s[cur].edges)
  {
    ok, f', cands', arcs := true, f, cands, {};
    var es := w.s[cur].edges;
    assert seen + Fan(cur, {}) == seen;
    for i := 0 to |es|
      invariant arcs == ForwardArcs(w, es[..i])
      invariant LevelOk(w, f', cands', fixed, routes, base, hop, seen + Fan(cur, arcs))
    {
      ForwardMore(w, es, i);
      var fits := MatchTypeList(w.glob, w.step.edges, es[i].kind);
      if !fits {
        continue;
      }
      var interrupted: bool := *;
      if interrupted || es[i].reference !in w.s {
        assert ForwardArcs(w, es[..i]) <= ForwardArcs(w, es);
        ok := false;
        return;
      }
      FanMore(cur, arcs, es[i].reference);
      assert seen + Fan(cur, arcs) + {(cur, es[i].reference)} == seen + Fan(cur, arcs + {es[i].reference});
      f', cands' := ConsiderArc(w, f', cands', fixed, routes, cur, es[i].reference, hop, base, seen + Fan(cur, arcs));
      arcs := arcs + {es[i].reference};
    }
    assert es[..|es|] == es;
  }

  /** The claims the reverse index lists as referencing cur. */
  method ExpandBack(w: Setting, f: Found, cands: Cands, fixed: set<Id>, routes: map<Id, seq<Id>>, cur: Id, hop: nat,
    ghost base: set<Id>, ghost seen: Pairs) returns (f': Found, cands': Cands)
    requires RoutesHeld(w, routes) && LevelOk(w, f, cands, fixed, routes, base, hop, seen)
    requires forall i :: i in Into(w, cur) ==> i.from in w.s
    ensures LevelOk(w, f', cands', fixed, routes, base, hop, seen + Fan(cur, BackArcs(w, Into(w, cur))))
  {
    f', cands' := f, cands;
    var ins := Into(w, cur);
    ghost var arcs: set<Id> := {};
    assert seen + Fan(cur, {}) == seen;
    for i := 0 to |ins|
      invariant arcs == BackArcs(w, ins[..i])
      invariant LevelOk(w, f', cands', fixed, routes, base, hop, seen + Fan(cur, arcs))
    {
      BackMore(w, ins, i);
      assert ins[i] in ins;
      var fits := MatchTypeList(w.glob, w.step.edges, ins[i].kind);
      if !fits {
        continue;
      }
      FanMore(cur, arcs, ins[i].from);
      assert seen + Fan(cur, arcs) + {(cur, ins[i].from)} == seen + Fan(cur, arcs + {ins[i].from});
      f', cands' := ConsiderArc(w, f', cands', fixed, routes, cur, ins[i].from, hop, base, seen + Fan(cur, arcs));
      arcs := arcs + {ins[i].from};
    }
    assert ins[..|ins|] == ins;
  }

  method ExpandOne(w: Setting, f: Found, cands: Cands, fixed: set<Id>, routes: map<Id, seq<Id>>, cur: Id, hop: nat,
    ghost base: set<Id>, ghost seen: Pairs) returns (ok: bool, f': Found, cands': Cands, ghost arcs: set<Id>)
    requires cur in w.s && RoutesHeld(w, routes) && LevelOk(w, f, cands, fixed, routes, base, hop, seen)
    requires forall i :: i in Into(w, cur) ==> i.from in w.s
    ensures LevelOk(w, f', cands', fixed, routes, base, hop, seen + Fan(cur, arcs))
    ensures arcs <= Refs(Arcs(w), cur)
    ensures ok ==> arcs == Refs(Arcs(w), cur)
    ensures ok ==> LevelOk(w, f', cands', fixed, routes, base, hop, seen + Fan(cur, Refs(Arcs(w), cur)))
  {
    ok, f', cands', arcs := true, f, cands, {};
    assert seen + Fan(cur, {}) == seen;
    if GoesForward(w.step.dir) {
      ok, f', cands', arcs := ExpandForward(w, f, cands, fixed, routes, cur, hop, base, seen);
      if !ok {
        return;
      }
    }
    if GoesBack(w.step.dir) {
      ghost var back := BackArcs(w, Into(w, cur));
      f', cands' := ExpandBack(w, f', cands', fixed, routes, cur, hop, base, seen + Fan(cur, arcs));
      assert seen + Fan(cur, arcs) + Fan(cur, back) == seen + Fan(cur, arcs + back);
      arcs := arcs + back;
    }
  }

  ghost predicate IncomingHeld(w: Setting) {
    forall x, i :: i in Into(w, x) ==> i.from in w.s
  }

  /** The arcs out of a level. */
  ghost predicate FromLevel(w: Setting, level: seq<Id>, seen: Pairs) {
    forall pk :: pk in seen ==> pk.0 in level && Step(Arcs(w), pk.0, pk.1)
  }

  ghost predicate AllFrom(w: Setting, level: seq<Id>, seen: Pairs) {
    forall p: Id, k: Id :: p in level && Step(Arcs(w), p, k) ==> (p, k) in seen
  }

  method ExpandLevel(w: Setting, f: Found, fixed: set<Id>, routes: map<Id, seq<Id>>, level: seq<Id>, hop: nat)
    returns (ok: bool, f': Found, cands: Cands, ghost seen: Pairs)
    requires RoutesHeld(w, routes) && IncomingHeld(w) && Listed(f) && forall c :: c in level ==> c in w.s
    ensures LevelOk(w, f', cands, fixed, routes, f.collected, hop, seen) && FromLevel(w, level, seen)
    ensures ok ==> AllFrom(w, level, seen)
  {
    ok, f', cands, seen := true, f, Cands(map[], []), {};
    for i := 0 to |level|
      invariant LevelOk(w, f', cands, fixed, routes, f.collected, hop, seen)
      invariant FromLevel(w, level[..i], seen) && AllFrom(w, level[..i], seen)
    {
      assert level[..i + 1] == level[..i] + [level[i]];
      ghost var arcs;
      ok, f', cands, arcs := ExpandOne(w, f', cands, fixed, routes, level[i], hop, f.collected, seen);
      seen := seen + Fan(level[i], arcs);
      if !ok {
        return;
      }
    }
    assert level[..|level|] == level;
  }

  /** The level ends: each candidate's route is settled, and the claims not walked through
      before make up the next level. */
  method Finalise(w: Setting, cands: Cands, fixed: set<Id>, visited: set<Id>, routes: map<Id, seq<Id>>)
    returns (fixed': set<Id>, visited': set<Id>, routes': map<Id, seq<Id>>, next: seq<Id>)
    requires NoRepeat(cands.order) && forall k :: k in cands.order <==> k in cands.best
    ensures fixed' == fixed + cands.best.Keys && visited' == visited + cands.best.Keys
    ensures forall k :: k in next <==> k in cands.best && k !in visited
    ensures routes' == if w.needPaths then Overlaid(routes, cands.best) else routes
  {
    fixed', visited', routes', next := fixed, visited, routes, [];
    ghost var done: set<Id> := {};
    for i := 0 to |cands.order|
      invariant done == Elements(cands.order[..i]) && done <= cands.best.Keys
      invariant fixed' == fixed + done && visited' == visited + done && routes' == Laid(w, routes, cands.best, done)
      invariant forall k :: k in next <==> k in done && k !in visited
    {
      var k := cands.order[i];
      assert cands.order[..i + 1] == cands.order[..i] + [k];
      assert k in cands.order;
      RepeatNever(cands.order, i);
      LaidMore(w, routes, cands.best, done, k);
      done := done + {k};
      if w.needPaths {
        routes' := routes'[k := cands.best[k]];
      }
      fixed' := fixed' + {k};
      if k in visited' {
        continue;
      }
      visited', next := visited' + {k}, next + [k];
    }
    assert cands.order[..|cands.order|] == cands.order;
    assert done == cands.best.Keys;
    LaidAll(w, routes, cands.best);
  }

  function Laid(w: Setting, routes: map<Id, seq<Id>>, best: map<Id, seq<Id>>, done: set<Id>): map<Id, seq<Id>> {
    if w.needPaths then routes + map k | k in done && k in best :: best[k] else routes
  }

  lemma LaidMore(w: Setting, routes: map<Id, seq<Id>>, best: map<Id, seq<Id>>, done: set<Id>, k: Id)
    requires k in best
    ensures Laid(w, routes, best, done + {k}) ==
      if w.needPaths then Laid(w, routes, best, done)[k := best[k]] else routes
  {
  }

  lemma LaidAll(w: Setting, routes: map<Id, seq<Id>>, best: map<Id, seq<Id>>)
    ensures Laid(w, routes, best, best.Keys) == if w.needPaths then Overlaid(routes, best) else routes
  {
    assert (map k | k in best.Keys && k in best :: best[k]) == best;
  }

  lemma RepeatNever(order: seq<Id>, i: nat)
    requires NoRepeat(order) && i < |order|
    ensures order[i] !in order[..i]
  {
  }

  // ---- The walk, level by level ----

  /** Where the sets stand before level h is expanded. */
  ghost predicate Walked(w: Setting, frontier: set<Id>, h: nat, f: Found, visited: set<Id>, fixed: set<Id>,
      level: seq<Id>) {
    && Listed(f) && visited <= w.s.Keys
    && (forall c :: c in f.collected <==> Answer(w, frontier, h, c))
    && (forall c :: c in visited <==> exists d: nat :: d <= h && At(Arcs(w), frontier, c, d))
    && (forall c :: c in level <==> At(Arcs(w), frontier, c, h))
    && (forall c :: c in fixed <==> Settled(w, frontier, h, c))
  }

  /** The route of c is settled: it answers at hop 0, or was arrived at before level h. */
  ghost predicate Settled(w: Setting, frontier: set<Id>, h: nat, c: Id) {
    Stays(w, frontier, c) || exists d: nat :: d < h && Arrives(Arcs(w), frontier, c, d)
  }

  ghost predicate Stays(w: Setting, frontier: set<Id>, c: Id) {
    c in frontier && w.step.min == 0 && Wanted(w, c)
  }

  ghost predicate LevelSeen(g: Graph, frontier: set<Id>, h: nat, seen: Pairs) {
    forall p: Id, k: Id :: (p, k) in seen <==> At(g, frontier, p, h) && Step(g, p, k)
  }

  lemma SeenArrives(g: Graph, frontier: set<Id>, h: nat, seen: Pairs, k: Id)
    requires LevelSeen(g, frontier, h, seen)
    ensures HasParent(seen, k) <==> Arrives(g, frontier, k, h)
  {
    if HasParent(seen, k) {
      var p :| (p, k) in seen;
    }
    if Arrives(g, frontier, k, h) {
      var p: Id :| At(g, frontier, p, h) && Step(g, p, k);
      assert (p, k) in seen;
    }
  }

  lemma AnswerMore(w: Setting, frontier: set<Id>, h: nat, c: Id)
    ensures Answer(w, frontier, h + 1, c) <==>
      Answer(w, frontier, h, c) || (Wanted(w, c) && w.step.min <= h + 1 && Arrives(Arcs(w), frontier, c, h))
  {
  }

  lemma SettledMore(w: Setting, frontier: set<Id>, h: nat, c: Id)
    ensures Settled(w, frontier, h + 1, c) <==> Settled(w, frontier, h, c) || Arrives(Arcs(w), frontier, c, h)
  {
  }

  /** A level's candidates are the claims first arrived at from it, visited or not. */
  lemma CandsSettle(w: Setting, frontier: set<Id>, h: nat, fixed: set<Id>, cands: Cands, routes: map<Id, seq<Id>>,
      seen: Pairs, c: Id)
    requires LevelSeen(Arcs(w), frontier, h, seen) && CandsOk(w, cands, fixed, routes, seen)
    requires c in fixed <==> Settled(w, frontier, h, c)
    ensures c in fixed || c in cands.best <==> Settled(w, frontier, h + 1, c)
    ensures c in cands.best <==> Arrives(Arcs(w), frontier, c, h) && !Settled(w, frontier, h, c)
  {
    SeenArrives(Arcs(w), frontier, h, seen, c);
    SettledMore(w, frontier, h, c);
  }

  lemma CandsVisit(w: Setting, frontier: set<Id>, h: nat, f: Found, visited: set<Id>, fixed: set<Id>, level: seq<Id>,
      cands: Cands, c: Id)
    requires Walked(w, frontier, h, f, visited, fixed, level)
    requires c in cands.best <==> Arrives(Arcs(w), frontier, c, h) && !Settled(w, frontier, h, c)
    ensures c in visited || c in cands.best <==> exists d: nat :: d <= h + 1 && At(Arcs(w), frontier, c, d)
    ensures c in cands.best && c !in visited <==> At(Arcs(w), frontier, c, h + 1)
  {
    var g := Arcs(w);
    NextLevel(g, frontier, c, h);
    if At(g, frontier, c, h + 1) && Settled(w, frontier, h, c) {
      AtZero(g, frontier, c);
      var d: nat :| d < h && Arrives(g, frontier, c, d);
      ArrivalWalks(g, frontier, c, d);
    }
    if c in cands.best && c in visited {
      var d: nat :| d <= h && At(g, frontier, c, d);
      assert d <= h + 1;
    }
  }

  lemma LevelWalked(
    w: Setting, frontier: set<Id>, h: nat, f: Found, f': Found, visited: set<Id>, fixed: set<Id>, level: seq<Id>,
    cands: Cands, routes: map<Id, seq<Id>>, seen: Pairs, next: seq<Id>)
    requires Walked(w, frontier, h, f, visited, fixed, level)
    requires LevelSeen(Arcs(w), frontier, h, seen) && LevelOk(w, f', cands, fixed, routes, f.collected, h, seen)
    requires forall k :: k in next <==> k in cands.best && k !in visited
    ensures Walked(w, frontier, h + 1, f', visited + cands.best.Keys, fixed + cands.best.Keys, next)
  {
    forall c ensures c in f'.collected <==> Answer(w, frontier, h + 1, c) {
      LevelCollects(w, frontier, h, f, f', fixed, cands, routes, seen, c);
    }
    forall c
      ensures c in fixed + cands.best.Keys <==> Settled(w, frontier, h + 1, c)
      ensures c in visited + cands.best.Keys <==> exists d: nat :: d <= h + 1 && At(Arcs(w), frontier, c, d)
      ensures c in next <==> At(Arcs(w), frontier, c, h + 1)
    {
      CandsSettle(w, frontier, h, fixed, cands, routes, seen, c);
      CandsVisit(w, frontier, h, f, visited, fixed, level, cands, c);
    }
    CandsHeld(w, cands, fixed, routes, seen);
  }

  lemma LevelCollects(
    w: Setting, frontier: set<Id>, h: nat, f: Found, f': Found, fixed: set<Id>, cands: Cands, routes: map<Id, seq<Id>>,
    seen: Pairs, c: Id)
    requires LevelSeen(Arcs(w), frontier, h, seen) && CollectedBy(w, f', f.collected, h, seen)
    requires c in f.collected <==> Answer(w, frontier, h, c)
    ensures c in f'.collected <==> Answer(w, frontier, h + 1, c)
  {
    SeenArrives(Arcs(w), frontier, h, seen, c);
    AnswerMore(w, frontier, h, c);
  }

  lemma CandsHeld(w: Setting, cands: Cands, fixed: set<Id>, routes: map<Id, seq<Id>>, seen: Pairs)
    requires CandsOk(w, cands, fixed, routes, seen) && forall pk :: pk in seen ==> pk.1 in w.s
    ensures cands.best.Keys <= w.s.Keys
  {
    forall k | k in cands.best ensures k in w.s {
      assert HasParent(seen, k);
      var p :| (p, k) in seen;
      assert (p, k).1 in w.s;
    }
  }

  // ---- Routes, level by level ----

  /** Each route settled before level h is the first among the shortest to its claim. */
  ghost predicate Routed(w: Setting, frontier: set<Id>, h: nat, routes: map<Id, seq<Id>>) {
    && (forall c: Id :: Stays(w, frontier, c) || (h == 0 && c in frontier) ==> c in routes && routes[c] == [c])
    && (forall c: Id, d: nat :: d < h && First(Arcs(w), frontier, c, d) && !Stays(w, frontier, c) ==>
          LeastAt(w, frontier, c, d + 1, routes))
  }

  ghost predicate LeastAt(w: Setting, frontier: set<Id>, c: Id, n: nat, routes: map<Id, seq<Id>>) {
    c in routes && Least(Arcs(w), PlaceOf(w), frontier, c, n, routes[c])
  }

  lemma LevelRouted(w: Setting, frontier: set<Id>, h: nat, routes: map<Id, seq<Id>>, p: Id)
    requires Routed(w, frontier, h, routes) && At(Arcs(w), frontier, p, h)
    ensures LeastAt(w, frontier, p, h, routes)
  {
    AtZero(Arcs(w), frontier, p);
    if h == 0 {
      LeastAlone(Arcs(w), PlaceOf(w), frontier, p);
    } else {
      FirstIsBelow(Arcs(w), frontier, p, h - 1);
    }
  }

  lemma CandRouted(w: Setting, frontier: set<Id>, h: nat, best: seq<Id>, routes: map<Id, seq<Id>>, seen: Pairs, c: Id)
    requires LevelSeen(Arcs(w), frontier, h, seen) && OfferedBest(w, best, routes, seen, c)
    requires Routed(w, frontier, h, routes) && w.needPaths && First(Arcs(w), frontier, c, h)
    ensures Least(Arcs(w), PlaceOf(w), frontier, c, h + 1, best)
  {
    var g := Arcs(w);
    forall p | At(g, frontier, p, h) ensures LeastAt(w, frontier, p, h, routes) {
      LevelRouted(w, frontier, h, routes, p);
    }
    var p :| (p, c) in seen && best == Offer(w, routes, p, c);
    assert At(g, frontier, p, h) && |routes[p]| == h + 1;
    forall q | At(g, frontier, q, h) && Step(g, q, c) && q in routes && |routes[q]| == h + 1
      ensures !Lexless(PlaceOf(w), routes[q] + [c], best)
    {
      assert (q, c) in seen;
      assert !LessRoute(PlaceOf(w), Offer(w, routes, q, c), best);
    }
    LeastComposes(g, PlaceOf(w), frontier, routes, c, h, best);
  }

  /** Of a claim's routes only the one settled in its own level matters: earlier ones stand,
      and the level's candidate is the first of the next shortest. */
  lemma RouteOf(
    w: Setting, frontier: set<Id>, h: nat, fixed: set<Id>, cands: Cands, routes: map<Id, seq<Id>>, seen: Pairs,
    c: Id, d: nat)
    returns (r: seq<Id>)
    requires LevelSeen(Arcs(w), frontier, h, seen) && CandsOk(w, cands, fixed, routes, seen)
    requires Routed(w, frontier, h, routes) && w.needPaths && (c in fixed <==> Settled(w, frontier, h, c))
    requires d <= h && First(Arcs(w), frontier, c, d) && !Stays(w, frontier, c)
    ensures if c in cands.best then r == cands.best[c] else c in routes && r == routes[c]
    ensures Least(Arcs(w), PlaceOf(w), frontier, c, d + 1, r)
  {
    CandsSettle(w, frontier, h, fixed, cands, routes, seen, c);
    if d == h {
      r := cands.best[c];
      CandRouted(w, frontier, d, r, routes, seen, c);
    } else {
      r := routes[c];
      assert LeastAt(w, frontier, c, d + 1, routes);
    }
  }

  lemma NextRouted(w: Setting, frontier: set<Id>, h: nat, fixed: set<Id>, cands: Cands, routes: map<Id, seq<Id>>,
      seen: Pairs)
    requires LevelSeen(Arcs(w), frontier, h, seen) && CandsOk(w, cands, fixed, routes, seen)
    requires Routed(w, frontier, h, routes) && w.needPaths
    requires forall c :: c in fixed <==> Settled(w, frontier, h, c)
    ensures Routed(w, frontier, h + 1, Overlaid(routes, cands.best))
  {
    forall c: Id | Stays(w, frontier, c)
      ensures c in Overlaid(routes, cands.best) && Overlaid(routes, cands.best)[c] == [c]
    {
      CandsSettle(w, frontier, h, fixed, cands, routes, seen, c);
    }
    forall c: Id, d: nat | d < h + 1 && First(Arcs(w), frontier, c, d) && !Stays(w, frontier, c)
      ensures LeastAt(w, frontier, c, d + 1, Overlaid(routes, cands.best))
    {
      var r := RouteOf(w, frontier, h, fixed, cands, routes, seen, c, d);
      assert Overlaid(routes, cands.best)[c] == r;
    }
  }

  /** The route of an answer: the first, in the query's order, of the shortest routes a step may
      take to it. */
  ghost predicate Canonical(w: Setting, frontier: set<Id>, c: Id, r: seq<Id>) {
    exists n: nat ::
      && Allows(w.step, n) && WalkOf(Arcs(w), frontier, c, n)
      && (forall m: nat :: m < n && Allows(w.step, m) ==> !WalkOf(Arcs(w), frontier, c, m))
      && Least(Arcs(w), PlaceOf(w), frontier, c, n, r)
  }

  lemma AnswerRouted(w: Setting, frontier: set<Id>, h: nat, routes: map<Id, seq<Id>>, c: Id)
    requires Routed(w, frontier, h, routes) && Answer(w, frontier, h, c) && w.step.min <= 1
    requires w.step.max > 0 ==> h <= w.step.max
    ensures c in routes && Canonical(w, frontier, c, routes[c])
  {
    var g := Arcs(w);
    if Stays(w, frontier, c) {
      LeastAlone(g, PlaceOf(w), frontier, c);
      AtZero(g, frontier, c);
      assert Allows(w.step, 0);
    } else {
      var d: nat :| d < h && Arrives(g, frontier, c, d) && w.step.min <= d + 1;
      var e := FirstArrival(g, frontier, c, d);
      ArrivalWalks(g, frontier, c, e);
      assert Allows(w.step, e + 1);
      forall m: nat | m < e + 1 && Allows(w.step, m) ensures !WalkOf(g, frontier, c, m) {
        NoShorter(w, frontier, c, e, m);
      }
    }
  }

  lemma NoShorter(w: Setting, frontier: set<Id>, c: Id, e: nat, m: nat)
    requires First(Arcs(w), frontier, c, e) && m <= e && Allows(w.step, m)
    requires Wanted(w, c) && !Stays(w, frontier, c)
    ensures !WalkOf(Arcs(w), frontier, c, m)
  {
    var g := Arcs(w);
    AtZero(g, frontier, c);
    if WalkOf(g, frontier, c, m) && m > 0 {
      var d := ArrivesWithin(g, frontier, c, m);
    }
  }

  // ---- The step ----

  /** The frontier is hop 0: each claim walked from once, and collected if the step allows. */
  method Begin(w: Setting, frontier: seq<Id>) returns (f: Found, visited: set<Id>, fixed: set<Id>, level: seq<Id>)
    requires forall c :: c in frontier ==> c in w.s
    ensures Walked(w, Elements(frontier), 0, f, visited, fixed, level)
  {
    f, visited, fixed, level := Found({}, []), {}, {}, [];
    for i := 0 to |frontier|
      invariant Listed(f) && visited == Elements(frontier[..i]) && forall c :: c in level <==> c in visited
      invariant forall c :: c in f.collected <==> c in visited && w.step.min == 0 && Wanted(w, c)
      invariant fixed == f.collected
    {
      assert frontier[..i + 1] == frontier[..i] + [frontier[i]];
      var c := frontier[i];
      if c in visited {
        assert visited == Elements(frontier[..i + 1]);
        continue;
      }
      visited, level := visited + {c}, level + [c];
      f := Reach(w, f, c, 0);
      if c in f.collected {
        fixed := fixed + {c};
      }
    }
    assert frontier[..|frontier|] == frontier;
    forall c ensures At(Arcs(w), Elements(frontier), c, 0) <==> c in frontier {
      AtZero(Arcs(w), Elements(frontier), c);
    }
  }

  ghost predicate Alone(frontier: set<Id>, routes: map<Id, seq<Id>>) {
    forall c :: c in frontier ==> c in routes && routes[c] == [c]
  }

  lemma {:induction false} LevelsEnd(g: Graph, frontier: set<Id>, c: Id, h: nat, d: nat)
    requires h <= d && forall x :: !At(g, frontier, x, h)
    ensures !At(g, frontier, c, d)
    decreases d
  {
    if h < d && At(g, frontier, c, d) {
      NextLevel(g, frontier, c, d - 1);
      var p :| At(g, frontier, p, d - 1) && Step(g, p, c);
      LevelsEnd(g, frontier, p, h, d - 1);
    }
  }

  /** An emptied level, or the hop bound, leaves nothing to add. */
  lemma AnswerEnds(w: Setting, frontier: set<Id>, h: nat, c: Id)
    requires (forall x :: !At(Arcs(w), frontier, x, h)) || (w.step.max > 0 && h == w.step.max)
    requires w.step.max > 0 ==> h <= w.step.max
    ensures Answers(w, frontier, c) <==> Answer(w, frontier, h, c)
  {
    if Answers(w, frontier, c) && !Stays(w, frontier, c) {
      var d: nat :| Arrives(Arcs(w), frontier, c, d) && Allows(w.step, d + 1);
      if d >= h {
        var p :| At(Arcs(w), frontier, p, d) && Step(Arcs(w), p, c);
        LevelsEnd(Arcs(w), frontier, p, h, d);
      }
    }
  }

  lemma PartAnswers(w: Setting, frontier: set<Id>, h: nat, c: Id)
    requires Answer(w, frontier, h, c) && (w.step.max > 0 ==> h <= w.step.max)
    ensures Answers(w, frontier, c)
  {
  }

  lemma PartOfLevel(
    w: Setting, frontier: set<Id>, h: nat, f: Found, f': Found, visited: set<Id>, fixed: set<Id>, level: seq<Id>,
    cands: Cands, routes: map<Id, seq<Id>>, seen: Pairs)
    requires Walked(w, frontier, h, f, visited, fixed, level) && FromLevel(w, level, seen)
    requires LevelOk(w, f', cands, fixed, routes, f.collected, h, seen)
    ensures forall c :: c in f'.collected ==> Answer(w, frontier, h + 1, c)
  {
    forall c | c in f'.collected ensures Answer(w, frontier, h + 1, c) {
      AnswerMore(w, frontier, h, c);
      if c !in f.collected {
        var p :| (p, c) in seen;
        assert Step(Arcs(w), p, c) && At(Arcs(w), frontier, p, h);
      }
    }
  }

  lemma WholeLevel(w: Setting, frontier: set<Id>, h: nat, level: seq<Id>, seen: Pairs)
    requires forall c :: c in level <==> At(Arcs(w), frontier, c, h)
    requires FromLevel(w, level, seen) && AllFrom(w, level, seen)
    ensures LevelSeen(Arcs(w), frontier, h, seen)
  {
    forall p: Id, k: Id ensures (p, k) in seen <==> At(Arcs(w), frontier, p, h) && Step(Arcs(w), p, k) {
      if (p, k) in seen {
        assert (p, k).0 in level && Step(Arcs(w), (p, k).0, (p, k).1);
      }
    }
  }

  lemma BestRoutesHeld(w: Setting, cands: Cands, fixed: set<Id>, routes: map<Id, seq<Id>>, seen: Pairs)
    requires CandsOk(w, cands, fixed, routes, seen) && RoutesHeld(w, routes) && forall pk :: pk in seen ==> pk.1 in w.s
    ensures w.needPaths ==> RoutesHeld(w, Overlaid(routes, cands.best))
  {
    if w.needPaths {
      forall k | k in cands.best ensures forall c :: c in cands.best[k] ==> c in w.s {
        assert HasParent(seen, k);
        var p :| (p, k) in seen;
        assert (p, k).1 in w.s;
        BestHeld(w, cands, fixed, routes, seen, k);
      }
    }
  }

  /** One turn of the hop loop. */
  method WalkLevel(w: Setting, ghost frontier: set<Id>, f: Found, visited: set<Id>, fixed: set<Id>, level: seq<Id>,
    routes: map<Id, seq<Id>>, hop: nat)
    returns (ok: bool, f': Found, visited': set<Id>, fixed': set<Id>, next: seq<Id>, routes': map<Id, seq<Id>>)
    requires Walked(w, frontier, hop, f, visited, fixed, level) && RoutesHeld(w, routes) && IncomingHeld(w)
    ensures ok ==> Walked(w, frontier, hop + 1, f', visited', fixed', next)
    ensures ok ==> visited <= visited' && (next != [] ==> visited != visited')
    ensures !ok ==> Listed(f') && forall c :: c in f'.collected ==> Answer(w, frontier, hop + 1, c)
    ensures RoutesHeld(w, routes')
    ensures ok && w.needPaths && Routed(w, frontier, hop, routes) ==> Routed(w, frontier, hop + 1, routes')
  {
    visited', fixed', next, routes' := visited, fixed, [], routes;
    forall c | c in level ensures c in w.s {
      assert At(Arcs(w), frontier, c, hop);
      assert c in visited;
    }
    ghost var seen;
    var cands;
    ok, f', cands, seen := ExpandLevel(w, f, fixed, routes, level, hop);
    if !ok {
      PartOfLevel(w, frontier, hop, f, f', visited, fixed, level, cands, routes, seen);
      return;
    }
    WholeLevel(w, frontier, hop, level, seen);
    fixed', visited', routes', next := Finalise(w, cands, fixed, visited, routes);
    LevelWalked(w, frontier, hop, f, f', visited, fixed, level, cands, routes, seen, next);
    BestRoutesHeld(w, cands, fixed, routes, seen);
    if w.needPaths && Routed(w, frontier, hop, routes) {
      NextRouted(w, frontier, hop, fixed, cands, routes, seen);
    }
    assert next != [] ==> next[0] in visited' && next[0] !in visited;
  }

  lemma BegunRouted(w: Setting, frontier: set<Id>, routes: map<Id, seq<Id>>)
    requires Alone(frontier, routes)
    ensures Routed(w, frontier, 0, routes)
  {
  }

  /** How the hop loop stands: cut short with part of the answer, or walked up to this hop. */
  ghost predicate Going(w: Setting, frontier: set<Id>, alone: bool, ok: bool, hop: nat, f: Found,
    visited: set<Id>, fixed: set<Id>, level: seq<Id>, routes: map<Id, seq<Id>>)
  {
    && RoutesHeld(w, routes) && (w.step.max > 0 ==> hop <= w.step.max)
    && (ok ==> Walked(w, frontier, hop, f, visited, fixed, level) && (alone ==> Routed(w, frontier, hop, routes)))
    && (!ok ==> Listed(f) && forall c :: c in f.collected ==> Answer(w, frontier, hop, c))
  }

  lemma Gone(w: Setting, frontier: set<Id>, alone: bool, ok: bool, hop: nat, f: Found,
    visited: set<Id>, fixed: set<Id>, level: seq<Id>, routes: map<Id, seq<Id>>)
    requires Going(w, frontier, alone, ok, hop, f, visited, fixed, level, routes)
    requires ok ==> level == [] || (w.step.max > 0 && hop >= w.step.max)
    ensures StepResult(w, frontier, alone, ok, f.out, routes)
  {
    forall c | c in f.out ensures Answers(w, frontier, c) {
      PartAnswers(w, frontier, hop, c);
    }
    if ok {
      forall c ensures c in f.out <==> Answers(w, frontier, c) {
        AnswerEnds(w, frontier, hop, c);
      }
      if alone && w.step.min <= 1 {
        forall c | c in f.out ensures c in routes && Canonical(w, frontier, c, routes[c]) {
          AnswerRouted(w, frontier, hop, routes, c);
        }
      }
    }
  }

  /** One turn of the hop loop, which a deadline may cut short before or during the level. */
  method Turn(w: Setting, ghost frontier: set<Id>, ghost alone: bool, hop: nat, f: Found,
    visited: set<Id>, fixed: set<Id>, level: seq<Id>, routes: map<Id, seq<Id>>)
    returns (ok: bool, hop': nat, f': Found, visited': set<Id>, fixed': set<Id>, next: seq<Id>,
      routes': map<Id, seq<Id>>)
    requires Going(w, frontier, alone, true, hop, f, visited, fixed, level, routes) && IncomingHeld(w)
    requires (alone ==> w.needPaths) && (w.step.max > 0 ==> hop < w.step.max)
    ensures Going(w, frontier, alone, ok, hop', f', visited', fixed', next, routes')
    ensures ok ==> visited' <= w.s.Keys && (next == [] || w.s.Keys - visited' < w.s.Keys - visited)
    ensures ok ==> w.s.Keys - visited' <= w.s.Keys - visited
  {
    ok := *;
    hop', f', visited', fixed', next, routes' := hop, f, visited, fixed, level, routes;
    if ok {
      ok, f', visited', fixed', next, routes' := WalkLevel(w, frontier, f, visited, fixed, level, routes, hop);
      hop' := hop + 1;
      if ok && next != [] {
        var x :| x in visited' && x !in visited;
        assert x in w.s.Keys - visited && x !in w.s.Keys - visited';
      }
    }
  }

  /** What a step returns: part of its answer, or all of it, with the canonical routes. */
  ghost predicate StepResult(w: Setting, frontier: set<Id>, alone: bool, ok: bool, out: seq<Id>,
      routes: map<Id, seq<Id>>) {
    && NoRepeat(out) && (forall c :: c in out ==> Answers(w, frontier, c))
    && (ok ==> forall c :: Answers(w, frontier, c) ==> c in out)
    && (ok && alone && w.step.min <= 1 ==> forall c :: c in out ==> c in routes && Canonical(w, frontier, c, routes[c]))
  }

  /** queryWalkStep. A step that runs through answers exactly its specification, each claim
      once, with canonical routes where it may take at most one hop to start. A step cut short
      answers part of it. */
  method QueryWalkStep(w: Setting, frontier: seq<Id>, routes: map<Id, seq<Id>>)
    returns (ok: bool, out: seq<Id>, routes': map<Id, seq<Id>>)
    requires IncomingHeld(w) && RoutesHeld(w, routes) && forall c :: c in frontier ==> c in w.s
    ensures StepResult(w, Elements(frontier), w.needPaths && Alone(Elements(frontier), routes), ok, out, routes')
    ensures RoutesHeld(w, routes')
  {
    ghost var F, alone := Elements(frontier), w.needPaths && Alone(Elements(frontier), routes);
    var f, visited, fixed, level := Begin(w, frontier);
    var hop: nat := 0;
    ok, routes' := true, routes;
    if alone { BegunRouted(w, F, routes); }
    while ok && level != [] && !(w.step.max > 0 && hop >= w.step.max)
      invariant Going(w, F, alone, ok, hop, f, visited, fixed, level, routes')
      decreases ok, w.s.Keys - visited, |level|
    {
      ok, hop, f, visited, fixed, level, routes' := Turn(w, F, alone, hop, f, visited, fixed, level, routes');
    }
    Gone(w, F, alone, ok, hop, f, visited, fixed, level, routes');
    out := f.out;
  }
}
