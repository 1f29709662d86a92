/** A content address exists. Other modules assume of a digest that it tells claims apart and
    that no chain of references closes a cycle under it; here is one that does both, so what
    they prove is not said of nothing. It writes a claim as a list of numbers and a list as a
    number greater than each of its members. */
module Addressing {
  import opened Claims
  import opened Graphs
  import opened Options

  // ---- Pairs and lists of numbers ----

  function Triangle(n: nat): nat {
    if n == 0 then 0 else Triangle(n - 1) + n
  }

  function Pair(a: nat, b: nat): nat {
    Triangle(a + b) + b
  }

  lemma {:induction false} TriangleAbove(m: nat, n: nat)
    requires m <= n
    ensures m <= Triangle(m) <= Triangle(n)
    ensures m < n ==> Triangle(m) + m < Triangle(n)
    decreases n
  {
    if m < n {
      TriangleAbove(m, n - 1);
    } else if m > 0 {
      TriangleAbove(m - 1, m - 1);
    }
  }

  lemma PairInjective(a: nat, b: nat, c: nat, d: nat)
    requires Pair(a, b) == Pair(c, d)
    ensures a == c && b == d
  {
    if a + b < c + d {
      TriangleAbove(a + b, c + d);
    } else {
      TriangleAbove(c + d, a + b);
    }
  }

  function Number(xs: seq<nat>): nat {
    if xs == [] then 0 else 1 + Pair(xs[0], Number(xs[1..]))
  }

  lemma {:induction false} NumberInjective(xs: seq<nat>, ys: seq<nat>)
    requires Number(xs) == Number(ys)
    ensures xs == ys
  {
    if xs != [] && ys != [] {
      PairInjective(xs[0], Number(xs[1..]), ys[0], Number(ys[1..]));
      NumberInjective(xs[1..], ys[1..]);
      assert xs == [xs[0]] + xs[1..] && ys == [ys[0]] + ys[1..];
    }
  }

  lemma {:induction false} NumberAbove(xs: seq<nat>, i: nat)
    requires i < |xs|
    ensures xs[i] < Number(xs)
  {
    var rest := Number(xs[1..]);
    TriangleAbove(xs[0] + rest, xs[0] + rest);
    if i > 0 {
      NumberAbove(xs[1..], i - 1);
    }
  }

  // ---- Claims as lists of numbers ----

  function Whole(x: int): nat {
    if x < 0 then -2 * x - 1 else 2 * x
  }

  function Text(t: string): seq<nat> {
    if t == "" then [] else [t[0] as int] + Text(t[1..])
  }

  function MaybeText(t: Option<string>): seq<nat> {
    if t.None? then [] else [Number(Text(t.value))]
  }

  function MaybeWhole(x: Option<int>): seq<nat> {
    if x.None? then [] else [Whole(x.value)]
  }

  function EdgeList(e: Edge): seq<nat> {
    [e.reference, Number(Text(e.kind)), Number(MaybeText(e.name)), Number(MaybeWhole(e.deleteBy))]
  }

  function EdgesList(es: seq<Edge>): (r: seq<nat>)
    ensures |r| == |es| && forall i :: 0 <= i < |es| ==> r[i] == Number(EdgeList(es[i]))
  {
    seq(|es|, i requires 0 <= i < |es| => Number(EdgeList(es[i])))
  }

  /** The names of a set in some order, the same whenever the set is. */
  ghost function Names(names: set<string>): (r: seq<nat>)
    ensures forall n :: n in names <==> Number(Text(n)) in r
  {
    if names == {} then [] else
      var n :| n in names;
      forall m, k | Number(Text(m)) == Number(Text(k)) ensures m == k { TextInjective(m, k); }
      [Number(Text(n))] + Names(names - {n})
  }

  ghost function ClaimList(c: Claim): seq<nat> {
    [Number(Text(c.kind)), Number(EdgesList(c.edges)), Whole(c.createdAt), c.height,
     Number(MaybeWhole(c.deleteBy)), Number(Names(c.edgesOmit)), c.payload]
  }

  ghost function Digest(c: Claim): Id {
    Number(ClaimList(c))
  }

  lemma {:induction false} SameText(t: string, u: string)
    requires Text(t) == Text(u)
    ensures t == u
  {
    if t != "" && u != "" {
      assert Text(t)[1..] == Text(t[1..]) && Text(u)[1..] == Text(u[1..]);
      SameText(t[1..], u[1..]);
      assert t == [t[0]] + t[1..] && u == [u[0]] + u[1..];
    }
  }

  lemma TextInjective(t: string, u: string)
    requires Number(Text(t)) == Number(Text(u))
    ensures t == u
  {
    NumberInjective(Text(t), Text(u));
    SameText(t, u);
  }

  lemma EdgeInjective(e: Edge, d: Edge)
    requires Number(EdgeList(e)) == Number(EdgeList(d))
    ensures e == d
  {
    NumberInjective(EdgeList(e), EdgeList(d));
    assert EdgeList(e)[0] == EdgeList(d)[0] && EdgeList(e)[1] == EdgeList(d)[1];
    assert EdgeList(e)[2] == EdgeList(d)[2] && EdgeList(e)[3] == EdgeList(d)[3];
    TextInjective(e.kind, d.kind);
    NumberInjective(MaybeText(e.name), MaybeText(d.name));
    NumberInjective(MaybeWhole(e.deleteBy), MaybeWhole(d.deleteBy));
    if e.name.Some? {
      assert MaybeText(e.name)[0] == MaybeText(d.name)[0];
      TextInjective(e.name.value, d.name.value);
    }
    if e.deleteBy.Some? {
      assert MaybeWhole(e.deleteBy)[0] == MaybeWhole(d.deleteBy)[0];
    }
  }

  lemma EdgesInjective(es: seq<Edge>, ds: seq<Edge>)
    requires EdgesList(es) == EdgesList(ds)
    ensures es == ds
  {
    forall i | 0 <= i < |es| ensures es[i] == ds[i] {
      EdgeInjective(es[i], ds[i]);
    }
  }

  lemma NamesInjective(names: set<string>, others: set<string>)
    requires Names(names) == Names(others)
    ensures names == others
  {
    assert forall n :: n in names <==> Number(Text(n)) in Names(names);
  }

  lemma DigestInjective(c: Claim, d: Claim)
    requires Digest(c) == Digest(d)
    ensures c == d
  {
    var xs, ys := ClaimList(c), ClaimList(d);
    NumberInjective(xs, ys);
    assert xs[0] == ys[0] && xs[1] == ys[1] && xs[2] == ys[2] && xs[3] == ys[3];
    assert xs[4] == ys[4] && xs[5] == ys[5] && xs[6] == ys[6];
    TextInjective(c.kind, d.kind);
    NumberInjective(EdgesList(c.edges), EdgesList(d.edges));
    EdgesInjective(c.edges, d.edges);
    NumberInjective(MaybeWhole(c.deleteBy), MaybeWhole(d.deleteBy));
    if c.deleteBy.Some? {
      assert MaybeWhole(c.deleteBy)[0] == MaybeWhole(d.deleteBy)[0];
    }
    NumberInjective(Names(c.edgesOmit), Names(d.edgesOmit));
    NamesInjective(c.edgesOmit, d.edgesOmit);
  }

  /** A claim's address is greater than every address it references. */
  lemma DigestAbove(c: Claim, e: Edge)
    requires e in c.edges
    ensures e.reference < Digest(c)
  {
    var i :| 0 <= i < |c.edges| && c.edges[i] == e;
    NumberAbove(EdgeList(e), 0);
    NumberAbove(EdgesList(c.edges), i);
    NumberAbove(ClaimList(c), 1);
  }

  lemma DigestAddresses()
    ensures Addresses(Digest)
  {
    forall c: Claim, d: Claim | Digest(c) == Digest(d) ensures c == d {
      DigestInjective(c, d);
    }
    var rank: Id -> nat := id => id;
    forall c: Claim, e: Edge | e in c.edges ensures rank(e.reference) < rank(Digest(c)) {
      DigestAbove(c, e);
    }
    assert Precedes(Digest, rank);
  }
}
