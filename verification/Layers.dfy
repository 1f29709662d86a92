/** Distances from a frontier and the least walks among the shortest ones: what a
    level-synchronised traversal is specified by. */
module Layers {
  import opened Graphs

  // ---- Distances ----

  ghost predicate WalkOf(g: Graph, frontier: set<Id>, c: Id, n: nat) {
    exists f :: f in frontier && ReachIn(g, f, c, n)
  }

  /** The shortest walk from the frontier to c has n steps. */
  ghost predicate At(g: Graph, frontier: set<Id>, c: Id, n: nat) {
    WalkOf(g, frontier, c, n) && forall m: nat :: m < n ==> !WalkOf(g, frontier, c, m)
  }

  /** A claim at distance n steps to c. */
  ghost predicate Arrives(g: Graph, frontier: set<Id>, c: Id, n: nat) {
    exists p :: At(g, frontier, p, n) && Step(g, p, c)
  }

  /** ... and no claim nearer than n does. */
  ghost predicate First(g: Graph, frontier: set<Id>, c: Id, n: nat) {
    Arrives(g, frontier, c, n) && forall m: nat :: m < n ==> !Arrives(g, frontier, c, m)
  }

  lemma {:induction false} Shortest(g: Graph, frontier: set<Id>, c: Id, n: nat) returns (d: nat)
    requires WalkOf(g, frontier, c, n)
    ensures d <= n && At(g, frontier, c, d)
    decreases n
  {
    if m: nat :| m < n && WalkOf(g, frontier, c, m) {
      d := Shortest(g, frontier, c, m);
    } else {
      d := n;
    }
  }

  lemma AtZero(g: Graph, frontier: set<Id>, c: Id)
    ensures At(g, frontier, c, 0) <==> c in frontier
  {
    if c in frontier {
      assert ReachIn(g, c, c, 0);
    }
  }

  lemma WalkStep(g: Graph, frontier: set<Id>, p: Id, c: Id, n: nat)
    requires WalkOf(g, frontier, p, n) && Step(g, p, c)
    ensures WalkOf(g, frontier, c, n + 1)
  {
    var f :| f in frontier && ReachIn(g, f, p, n);
    assert ReachIn(g, c, c, 0) && ReachIn(g, p, c, 1);
    ReachInTrans(g, f, p, c, n, 1);
  }

  lemma WalkLast(g: Graph, frontier: set<Id>, c: Id, n: nat) returns (p: Id)
    requires n > 0 && WalkOf(g, frontier, c, n)
    ensures WalkOf(g, frontier, p, n - 1) && Step(g, p, c)
  {
    var f :| f in frontier && ReachIn(g, f, c, n);
    p := LastStep(g, f, c, n);
  }

  /** Some walk of n > 0 steps ends at c exactly when a claim within n - 1 steps precedes it. */
  lemma ArrivesWithin(g: Graph, frontier: set<Id>, c: Id, n: nat) returns (d: nat)
    requires n > 0 && WalkOf(g, frontier, c, n)
    ensures d < n && Arrives(g, frontier, c, d)
  {
    var p := WalkLast(g, frontier, c, n);
    d := Shortest(g, frontier, p, n - 1);
  }

  lemma ArrivalWalks(g: Graph, frontier: set<Id>, c: Id, n: nat)
    requires Arrives(g, frontier, c, n)
    ensures WalkOf(g, frontier, c, n + 1)
  {
    var p :| At(g, frontier, p, n) && Step(g, p, c);
    WalkStep(g, frontier, p, c, n);
  }

  lemma {:induction false} FirstArrival(g: Graph, frontier: set<Id>, c: Id, n: nat) returns (d: nat)
    requires Arrives(g, frontier, c, n)
    ensures d <= n && First(g, frontier, c, d)
    decreases n
  {
    if m: nat :| m < n && Arrives(g, frontier, c, m) {
      d := FirstArrival(g, frontier, c, m);
    } else {
      d := n;
    }
  }

  /** The next level: what the present one steps to and no level so far holds. */
  lemma NextLevel(g: Graph, frontier: set<Id>, c: Id, n: nat)
    ensures At(g, frontier, c, n + 1) <==>
      Arrives(g, frontier, c, n) && forall m: nat :: m <= n ==> !At(g, frontier, c, m)
  {
    if At(g, frontier, c, n + 1) {
      var p := WalkLast(g, frontier, c, n + 1);
      var d := Shortest(g, frontier, p, n);
      WalkStep(g, frontier, p, c, d);
      assert d == n;
    }
    if Arrives(g, frontier, c, n) && forall m: nat :: m <= n ==> !At(g, frontier, c, m) {
      ArrivalWalks(g, frontier, c, n);
      var d := Shortest(g, frontier, c, n + 1);
    }
  }

  /** A claim off the frontier is first arrived at from one level below its own. */
  lemma FirstIsBelow(g: Graph, frontier: set<Id>, c: Id, n: nat)
    requires c !in frontier
    ensures First(g, frontier, c, n) <==> At(g, frontier, c, n + 1)
  {
    AtZero(g, frontier, c);
    if First(g, frontier, c, n) {
      ArrivalWalks(g, frontier, c, n);
      var d := Shortest(g, frontier, c, n + 1);
      assert d > 0;
      NextLevel(g, frontier, c, d - 1);
      assert d == n + 1;
    }
    if At(g, frontier, c, n + 1) {
      NextLevel(g, frontier, c, n);
      forall m: nat | m < n ensures !Arrives(g, frontier, c, m) {
        if Arrives(g, frontier, c, m) {
          ArrivalWalks(g, frontier, c, m);
        }
      }
    }
  }

  // ---- The order of routes ----

  // (created_at, id): the place of a claim in the query's total order.
  type Place = (int, nat)

  predicate Before(a: Place, b: Place) {
    a.0 < b.0 || (a.0 == b.0 && a.1 < b.1)
  }

  /** lessRoute on routes of one length: the first place that differs decides. */
  predicate Lexless(place: Id -> Place, a: seq<Id>, b: seq<Id>)
    requires |a| == |b|
  {
    a != [] && (Before(place(a[0]), place(b[0])) || (place(a[0]) == place(b[0]) && Lexless(place, a[1..], b[1..])))
  }

  lemma {:induction false} LexTransitive(place: Id -> Place, a: seq<Id>, b: seq<Id>, c: seq<Id>)
    requires |a| == |b| == |c| && !Lexless(place, b, a) && !Lexless(place, c, b)
    ensures !Lexless(place, c, a)
  {
    if a != [] {
      if place(a[0]) == place(b[0]) == place(c[0]) {
        LexTransitive(place, a[1..], b[1..], c[1..]);
      }
    }
  }

  lemma {:induction false} LexIrreflexive(place: Id -> Place, a: seq<Id>)
    ensures !Lexless(place, a, a)
  {
    if a != [] {
      LexIrreflexive(place, a[1..]);
    }
  }

  lemma {:induction false} LexAsymmetric(place: Id -> Place, a: seq<Id>, b: seq<Id>)
    requires |a| == |b| && Lexless(place, a, b)
    ensures !Lexless(place, b, a)
  {
    if place(a[0]) == place(b[0]) {
      LexAsymmetric(place, a[1..], b[1..]);
    }
  }

  /** Routes to one claim compare as the routes to the claims before it. */
  lemma {:induction false} LexAppend(place: Id -> Place, a: seq<Id>, b: seq<Id>, c: Id)
    requires |a| == |b|
    ensures Lexless(place, a + [c], b + [c]) <==> Lexless(place, a, b)
  {
    if a == [] {
      assert a + [c] == [c] && b + [c] == [c];
      LexIrreflexive(place, [c]);
    } else {
      assert (a + [c])[1..] == a[1..] + [c] && (b + [c])[1..] == b[1..] + [c];
      LexAppend(place, a[1..], b[1..], c);
    }
  }

  // ---- Least shortest walks ----

  ghost predicate IsRoute(g: Graph, frontier: set<Id>, c: Id, n: nat, r: seq<Id>) {
    && |r| == n + 1 && r[0] in frontier && r[n] == c
    && forall i :: 0 <= i < n ==> Step(g, r[i], r[i + 1])
  }

  /** r comes first among the routes of n steps to c. */
  ghost predicate Least(g: Graph, place: Id -> Place, frontier: set<Id>, c: Id, n: nat, r: seq<Id>) {
    IsRoute(g, frontier, c, n, r) && forall q :: IsRoute(g, frontier, c, n, q) ==> !Lexless(place, q, r)
  }

  lemma {:induction false} RouteWalks(g: Graph, frontier: set<Id>, c: Id, n: nat, r: seq<Id>)
    requires IsRoute(g, frontier, c, n, r)
    ensures WalkOf(g, frontier, c, n)
    decreases n
  {
    if n == 0 {
      assert ReachIn(g, c, c, 0);
    } else {
      assert Step(g, r[n - 1], r[n - 1 + 1]);
      RouteWalks(g, frontier, r[n - 1], n - 1, r[..n]);
      WalkStep(g, frontier, r[n - 1], c, n - 1);
    }
  }

  lemma RouteExtends(g: Graph, frontier: set<Id>, p: Id, c: Id, n: nat, r: seq<Id>)
    requires IsRoute(g, frontier, p, n, r) && Step(g, p, c)
    ensures IsRoute(g, frontier, c, n + 1, r + [c])
  {
  }

  /** best is the first of the level's routes stepped on to c. */
  ghost predicate BestOf(g: Graph, place: Id -> Place, frontier: set<Id>, routes: map<Id, seq<Id>>, c: Id, n: nat,
      best: seq<Id>) {
    && (exists p :: At(g, frontier, p, n) && Step(g, p, c) && p in routes && best == routes[p] + [c])
    && |best| == n + 2
    && forall p :: At(g, frontier, p, n) && Step(g, p, c) && p in routes && |routes[p]| == n + 1 ==>
      !Lexless(place, routes[p] + [c], best)
  }

  /** Extending the least routes of one level by a step, and keeping the first, gives the least
      routes of the next: a shortest route to c passes every level on its way. */
  lemma LeastComposes(g: Graph, place: Id -> Place, frontier: set<Id>, routes: map<Id, seq<Id>>, c: Id, n: nat,
      best: seq<Id>)
    requires First(g, frontier, c, n) && BestOf(g, place, frontier, routes, c, n, best)
    requires forall p :: At(g, frontier, p, n) ==> p in routes && Least(g, place, frontier, p, n, routes[p])
    ensures Least(g, place, frontier, c, n + 1, best)
  {
    var p :| At(g, frontier, p, n) && Step(g, p, c) && best == routes[p] + [c];
    RouteExtends(g, frontier, p, c, n, routes[p]);
    forall q | IsRoute(g, frontier, c, n + 1, q) ensures !Lexless(place, q, best) {
      var z := q[n];
      assert Step(g, q[n], q[n + 1]);
      assert IsRoute(g, frontier, z, n, q[..n + 1]);
      RouteWalks(g, frontier, z, n, q[..n + 1]);
      var d := Shortest(g, frontier, z, n);
      assert Arrives(g, frontier, c, d);
      assert At(g, frontier, z, n);
      assert q == q[..n + 1] + [c];
      LexAppend(place, q[..n + 1], routes[z], c);
      LexTransitive(place, best, routes[z] + [c], q);
    }
  }

  lemma LeastAlone(g: Graph, place: Id -> Place, frontier: set<Id>, c: Id)
    requires c in frontier
    ensures Least(g, place, frontier, c, 0, [c])
  {
    forall q | IsRoute(g, frontier, c, 0, q) ensures !Lexless(place, q, [c]) {
      assert q == [c];
      LexIrreflexive(place, [c]);
    }
  }
}
