/** What hop bounds promise and what a step answers (query_walk.go): a claim is expanded once,
    at its distance, so the answer is every claim some walk of an allowed length ends at for
    exactly the bounds given here. */
module Hops {
  import opened Claims
  import opened Graphs
  import opened Layers
  import opened Options
  import opened Traversal
  import opened Walks

  /** At c a step answers neither more nor less than its bounds promise. */
  ghost predicate Exact(w: Setting, frontier: set<Id>, c: Id) {
    Answers(w, frontier, c) <==>
      Wanted(w, c) && exists n: nat :: Allows(w.step, n) && WalkOf(Arcs(w), frontier, c, n)
  }

  /** The reverse index lists the references some of the claims make. */
  ghost predicate Indexed(w: Setting) {
    exists expanded: set<Id> :: Inverts(w.s, w.incoming, expanded)
  }

  /** Claims as a store can hold them, and an index swept over some of them. */
  ghost predicate Consistent(w: Setting) {
    Acyclic(w.s) && Indexed(w)
  }

  predicate Bounds(step: PathStep, dir: Direction, min: nat, max: nat) {
    step.dir == dir && step.min == min && step.max == max
  }

  ghost predicate ExactFromAny(dir: Direction, min: nat, max: nat) {
    forall w: Setting, frontier: set<Id>, c: Id ::
      Consistent(w) && Bounds(w.step, dir, min, max) ==> Exact(w, frontier, c)
  }

  ghost predicate ExactFromOne(dir: Direction, min: nat, max: nat) {
    forall w: Setting, f: Id, c: Id :: Consistent(w) && Bounds(w.step, dir, min, max) ==> Exact(w, {f}, c)
  }

  // ---- Where the bounds are kept ----

  ghost predicate Cites(s: Store, a: Id, b: Id) {
    a in s && exists e :: e in s[a].edges && e.reference == b
  }

  lemma ArcReferences(w: Setting, a: Id, b: Id)
    requires Indexed(w) && Step(Arcs(w), a, b)
    ensures w.step.dir == Provenance ==> Cites(w.s, a, b)
    ensures w.step.dir == Uses ==> Cites(w.s, b, a)
    ensures Cites(w.s, a, b) || Cites(w.s, b, a)
  {
    if GoesBack(w.step.dir) && b in BackArcs(w, Into(w, a)) {
      var i :| i in Into(w, a) && i.from == b;
      assert Lists(w.incoming, a, b, i.kind);
    }
  }

  lemma ArcRises(w: Setting, rank: Id -> nat, a: Id, b: Id)
    requires Ranks(w.s, rank) && Indexed(w) && w.step.dir != Connections
    requires Step(Arcs(w), a, b)
    ensures if w.step.dir == Uses then rank(a) < rank(b) else rank(b) < rank(a)
  {
    ArcReferences(w, a, b);
  }

  /** Along references ranks fall, and against them they rise. */
  lemma {:induction false} OneWayRises(w: Setting, rank: Id -> nat, a: Id, b: Id, n: nat)
    requires Ranks(w.s, rank) && Indexed(w) && w.step.dir != Connections
    requires n > 0 && ReachIn(Arcs(w), a, b, n)
    ensures rank(a) != rank(b) && (w.step.dir == Uses <==> rank(a) < rank(b))
    decreases n
  {
    var c :| Step(Arcs(w), a, c) && ReachIn(Arcs(w), c, b, n - 1);
    ArcRises(w, rank, a, c);
    if n > 1 {
      OneWayRises(w, rank, c, b, n - 1);
    }
  }

  lemma NoReturn(w: Setting, f: Id, n: nat)
    requires Consistent(w) && n > 0 && (w.step.dir != Connections || n == 1)
    ensures !ReachIn(Arcs(w), f, f, n)
  {
    var rank := Rank(w.s);
    if ReachIn(Arcs(w), f, f, n) {
      if w.step.dir == Connections {
        NoLoop(w, rank, f);
      } else {
        OneWayRises(w, rank, f, f, n);
      }
    }
  }

  lemma NoLoop(w: Setting, rank: Id -> nat, f: Id)
    requires Ranks(w.s, rank) && Indexed(w)
    ensures !Step(Arcs(w), f, f)
  {
    if Step(Arcs(w), f, f) {
      ArcReferences(w, f, f);
    }
  }

  /** From one claim two hops up are kept too, unless a longer walk may turn back. */
  lemma TwoFromOne(w: Setting, f: Id, c: Id)
    requires Consistent(w) && w.step.min == 2 && (w.step.dir != Connections || w.step.max == 2)
    ensures Exact(w, {f}, c)
  {
    var g := Arcs(w);
    if Answers(w, {f}, c) {
      AnswersWalk(w, {f}, c);
    }
    if n: nat :| Allows(w.step, n) && WalkOf(g, {f}, c, n) {
      var d := ArrivesLater(w, f, c, n);
      assert Allows(w.step, d + 1);
    }
  }

  /** The claim before the end of such a walk is not the one the step starts from. */
  lemma ArrivesLater(w: Setting, f: Id, c: Id, n: nat) returns (d: nat)
    requires Consistent(w) && n > 1 && (w.step.dir != Connections || n == 2) && WalkOf(Arcs(w), {f}, c, n)
    ensures 0 < d < n && Arrives(Arcs(w), {f}, c, d)
  {
    var p := WalkLast(Arcs(w), {f}, c, n);
    d := Shortest(Arcs(w), {f}, p, n - 1);
    if d == 0 {
      AtZero(Arcs(w), {f}, p);
      NoReturn(w, f, n - 1);
    }
  }

  // ---- Where they are not ----

  /** The claims of a path 0 to m, with a way from 0 straight to m - 1 if `skip` says so. */
  function Ahead(m: nat, skip: bool, j: nat): seq<Id> {
    (if j < m then [j + 1] else []) + (if skip && j == 0 && m > 0 then [m - 1] else [])
  }

  function Behind(m: nat, skip: bool, j: nat): seq<Id> {
    (if 0 < j <= m then [j - 1] else []) + (if skip && j + 1 == m then [0] else [])
  }

  function Out(dir: Direction, m: nat, skip: bool, j: nat): seq<Id> {
    if dir == Uses then Behind(m, skip, j) else Ahead(m, skip, j)
  }

  function In(dir: Direction, m: nat, skip: bool, j: nat): seq<Id> {
    if dir == Uses then Ahead(m, skip, j) else Behind(m, skip, j)
  }

  function EdgesTo(ids: seq<Id>): (r: seq<Edge>)
    ensures |r| == |ids| && forall i :: 0 <= i < |r| ==> r[i] == Edge(ids[i], "", None, None)
  {
    seq(|ids|, i requires 0 <= i < |ids| => Edge(ids[i], "", None, None))
  }

  function Froms(ids: seq<Id>): (r: seq<Incoming>)
    ensures |r| == |ids| && forall i :: 0 <= i < |r| ==> r[i] == Incoming(ids[i], "")
  {
    seq(|ids|, i requires 0 <= i < |ids| => Incoming(ids[i], ""))
  }

  /** That path in the direction a step goes: a uses step walks references backwards. */
  function Chain(dir: Direction, min: nat, max: nat, m: nat, skip: bool): Setting {
    Setting(
      map j: nat | j <= m :: Claim("", EdgesTo(Out(dir, m, skip, j)), 0, 0, None, {}, 0),
      map j: nat | j <= m :: Froms(In(dir, m, skip, j)),
      (p, t) => false, PathStep([], [], dir, min, max), _ => true, false)
  }

  lemma EdgesReach(ids: seq<Id>, b: Id)
    ensures (exists e :: e in EdgesTo(ids) && e.reference == b) <==> b in ids
    ensures forall e :: e in EdgesTo(ids) ==> e.kind == ""
  {
    if b in ids {
      var i :| 0 <= i < |ids| && ids[i] == b;
      assert EdgesTo(ids)[i] in EdgesTo(ids);
    }
  }

  lemma FromsHold(ids: seq<Id>, b: Id)
    ensures Incoming(b, "") in Froms(ids) <==> b in ids
    ensures forall i :: i in Froms(ids) ==> i.kind == ""
  {
    if b in ids {
      var i :| 0 <= i < |ids| && ids[i] == b;
      assert Froms(ids)[i] in Froms(ids);
    }
  }

  lemma ArcsAre(w: Setting, out: seq<Id>, into: seq<Id>, j: Id, k: Id)
    requires j in w.s && w.s[j].edges == EdgesTo(out) && Into(w, j) == Froms(into) && w.step.edges == []
    ensures Step(Arcs(w), j, k) <==>
      (GoesForward(w.step.dir) && k in out) || (GoesBack(w.step.dir) && k in into)
  {
    EdgesReach(out, k);
    FromsHold(into, k);
    assert k in ForwardArcs(w, w.s[j].edges) <==> k in out;
    assert k in BackArcs(w, Into(w, j)) <==> k in into;
  }

  lemma ChainArcs(dir: Direction, min: nat, max: nat, m: nat, skip: bool, j: Id, k: Id)
    ensures Step(Arcs(Chain(dir, min, max, m, skip)), j, k) <==>
      j <= m && (k in Ahead(m, skip, j) || (dir == Connections && k in Behind(m, skip, j)))
  {
    if j <= m {
      ArcsAre(Chain(dir, min, max, m, skip), Out(dir, m, skip, j), In(dir, m, skip, j), j, k);
    }
  }

  lemma ChainRanked(dir: Direction, min: nat, max: nat, m: nat, skip: bool)
    requires skip ==> m > 2
    ensures Acyclic(Chain(dir, min, max, m, skip).s)
  {
    var s := Chain(dir, min, max, m, skip).s;
    var rank: Id -> nat := a => if dir == Uses then a else if a <= m then m - a else 0;
    forall a, e | a in s && e in s[a].edges ensures rank(e.reference) < rank(a) {
      EdgesReach(Out(dir, m, skip, a), e.reference);
    }
    assert Ranks(s, rank);
  }

  lemma ChainCites(dir: Direction, min: nat, max: nat, m: nat, skip: bool, from: Id, kind: string, k: Id)
    ensures Traversal.References(Chain(dir, min, max, m, skip).s, from, kind, k) <==>
      from <= m && kind == "" && k in Out(dir, m, skip, from)
  {
    if from <= m {
      EdgesReach(Out(dir, m, skip, from), k);
    }
  }

  lemma ChainLists(dir: Direction, min: nat, max: nat, m: nat, skip: bool, from: Id, kind: string, k: Id)
    ensures Lists(Chain(dir, min, max, m, skip).incoming, k, from, kind) <==>
      k <= m && kind == "" && from in In(dir, m, skip, k)
  {
    if k <= m {
      FromsHold(In(dir, m, skip, k), from);
    }
  }

  lemma AheadIsBehind(m: nat, skip: bool, j: nat, k: nat)
    ensures j <= m && k in Ahead(m, skip, j) <==> k <= m && j in Behind(m, skip, k)
  {
  }

  lemma ChainInverts(dir: Direction, min: nat, max: nat, m: nat, skip: bool, from: Id, kind: string, k: Id)
    ensures Lists(Chain(dir, min, max, m, skip).incoming, k, from, kind) <==>
      Traversal.References(Chain(dir, min, max, m, skip).s, from, kind, k)
  {
    ChainCites(dir, min, max, m, skip, from, kind, k);
    ChainLists(dir, min, max, m, skip, from, kind, k);
    AheadIsBehind(m, skip, from, k);
    AheadIsBehind(m, skip, k, from);
  }

  lemma ChainConsistent(dir: Direction, min: nat, max: nat, m: nat, skip: bool)
    requires skip ==> m > 2
    ensures Consistent(Chain(dir, min, max, m, skip))
  {
    ChainRanked(dir, min, max, m, skip);
    forall k, from, kind
      ensures Lists(Chain(dir, min, max, m, skip).incoming, k, from, kind) <==>
        Traversal.References(Chain(dir, min, max, m, skip).s, from, kind, k)
    {
      ChainInverts(dir, min, max, m, skip, from, kind, k);
    }
    var w := Chain(dir, min, max, m, skip);
    assert Inverts(w.s, w.incoming, w.s.Keys);
  }

  /** The arcs of that path. Those of a connections step go both ways. */
  ghost predicate IsChain(g: Graph, m: nat, skip: bool, both: bool) {
    forall j: Id, k: Id ::
      Step(g, j, k) <==> j <= m && (k in Ahead(m, skip, j) || (both && k in Behind(m, skip, j)))
  }

  lemma ChainIsChain(dir: Direction, min: nat, max: nat, m: nat, skip: bool)
    ensures IsChain(Arcs(Chain(dir, min, max, m, skip)), m, skip, dir == Connections)
  {
    forall j: Id, k: Id ensures Step(Arcs(Chain(dir, min, max, m, skip)), j, k) <==>
      j <= m && (k in Ahead(m, skip, j) || (dir == Connections && k in Behind(m, skip, j)))
    {
      ChainArcs(dir, min, max, m, skip, j, k);
    }
  }

  lemma {:induction false} ChainWalk(g: Graph, j: nat, m: nat, skip: bool, both: bool)
    requires j <= m && IsChain(g, m, skip, both)
    ensures ReachIn(g, j, m, m - j)
    decreases m - j
  {
    if j < m {
      ChainWalk(g, j + 1, m, skip, both);
      assert Step(g, j, j + 1);
    }
  }

  lemma EndIsNear(g: Graph, m: nat, both: bool, frontier: set<Id>)
    requires m > 0 && IsChain(g, m, false, both) && frontier == {0, m - 1}
    ensures WalkOf(g, frontier, m, m) && forall d: nat :: Arrives(g, frontier, m, d) ==> d == 0
  {
    ChainWalk(g, 0, m, false, both);
    forall d: nat | Arrives(g, frontier, m, d) ensures d == 0 {
      var p :| At(g, frontier, p, d) && Step(g, p, m);
      AtZero(g, frontier, p);
      assert p == m - 1;
    }
  }

  lemma EndIsNextButOne(g: Graph, m: nat, both: bool)
    requires m > 2 && IsChain(g, m, true, both)
    ensures WalkOf(g, {0}, m, m) && forall d: nat :: Arrives(g, {0}, m, d) ==> d <= 1
  {
    ChainWalk(g, 0, m, true, both);
    AtZero(g, {0}, 0);
    WalkStep(g, {0}, 0, m - 1, 0);
    forall d: nat | Arrives(g, {0}, m, d) ensures d <= 1 {
      var p :| At(g, {0}, p, d) && Step(g, p, m);
      assert p == m - 1;
    }
  }

  lemma BackAndForth(g: Graph)
    requires IsChain(g, 1, false, true)
    ensures WalkOf(g, {0}, 1, 3) && forall d: nat :: Arrives(g, {0}, 1, d) ==> d == 0
  {
    AtZero(g, {0}, 0);
    WalkStep(g, {0}, 0, 1, 0);
    WalkStep(g, {0}, 1, 0, 1);
    WalkStep(g, {0}, 0, 1, 2);
    forall d: nat | Arrives(g, {0}, 1, d) ensures d == 0 {
      var p :| At(g, {0}, p, d) && Step(g, p, 1);
      assert p == 0;
    }
  }

  /** A claim some walk of n hops ends at is missed where every claim before it is near. */
  lemma Missed(w: Setting, frontier: set<Id>, c: Id, n: nat)
    requires Wanted(w, c) && w.step.min > 0 && Allows(w.step, n) && WalkOf(Arcs(w), frontier, c, n)
    requires forall d: nat :: Arrives(Arcs(w), frontier, c, d) ==> d + 1 < w.step.min
    ensures !Exact(w, frontier, c)
  {
  }

  /** Two claims asked from, one of them a hop before the end of the path. */
  lemma AnyMisses(dir: Direction, min: nat, max: nat)
    requires min >= 2 && (max == 0 || min <= max)
    ensures !ExactFromAny(dir, min, max)
  {
    var w := Chain(dir, min, max, min, false);
    ChainConsistent(dir, min, max, min, false);
    ChainIsChain(dir, min, max, min, false);
    var frontier: set<Id> := {0, min - 1};
    EndIsNear(Arcs(w), min, dir == Connections, frontier);
    Missed(w, frontier, min, min);
  }

  /** One claim asked from, with a short way to the claim before the end. */
  lemma OneMisses(dir: Direction, min: nat, max: nat)
    requires min >= 3 && (max == 0 || min <= max)
    ensures !ExactFromOne(dir, min, max)
  {
    var w := Chain(dir, min, max, min, true);
    ChainConsistent(dir, min, max, min, true);
    ChainIsChain(dir, min, max, min, true);
    EndIsNextButOne(Arcs(w), min, dir == Connections);
    Missed(w, {0}, min, min);
  }

  /** A connections step that may take three hops can walk back and forth. */
  lemma ReturnMisses(max: nat)
    requires max == 0 || max >= 3
    ensures !ExactFromOne(Connections, 2, max)
  {
    var w := Chain(Connections, 2, max, 1, false);
    ChainConsistent(Connections, 2, max, 1, false);
    ChainIsChain(Connections, 2, max, 1, false);
    BackAndForth(Arcs(w));
    Missed(w, {0}, 1, 3);
  }

  // ---- Exactly which bounds ----

  /** Over frontiers of any size a step keeps its bounds exactly from 0 or 1 hops up. */
  lemma BoundsKept(dir: Direction, min: nat, max: nat)
    requires max == 0 || min <= max
    ensures ExactFromAny(dir, min, max) <==> min <= 1
  {
    if min <= 1 {
      forall w: Setting, frontier: set<Id>, c: Id | Consistent(w) && Bounds(w.step, dir, min, max)
        ensures Exact(w, frontier, c)
      {
        AnswersAreWalks(w, frontier, c);
      }
    } else {
      AnyMisses(dir, min, max);
    }
  }

  /** From a single claim it keeps two as well, a connections step only if it asks for two
      exactly. */
  lemma BoundsKeptFromOne(dir: Direction, min: nat, max: nat)
    requires max == 0 || min <= max
    ensures ExactFromOne(dir, min, max) <==> min <= 1 || (min == 2 && (dir != Connections || max == 2))
  {
    if min >= 3 {
      OneMisses(dir, min, max);
    } else if min == 2 && dir == Connections && max != 2 {
      ReturnMisses(max);
    } else {
      forall w: Setting, f: Id, c: Id | Consistent(w) && Bounds(w.step, dir, min, max) ensures Exact(w, {f}, c) {
        if min == 2 {
          TwoFromOne(w, f, c);
        } else {
          AnswersAreWalks(w, {f}, c);
        }
      }
    }
  }
}
