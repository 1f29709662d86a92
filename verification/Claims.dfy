/** Claims, their edges, and the store that holds them by content address. */
module Claims {
  import opened Graphs
  import opened Options

  const NODE_CONTRIBUTOR := "contribution/contributor"
  const NODE_HEAD := "contribution/head"
  const NODE_BRANCHES := "contribution/branches"
  const NODE_DELETE := "contribution/delete"

  const EDGE_CONTRIBUTOR := "contribution/contributor"
  const EDGE_HEAD := "contribution/head"
  const EDGE_BRANCH := "contribution/branch"
  const EDGE_DIFF := "contribution/diff"
  const EDGE_DELETE := "contribution/delete"

  // `name` is the edge's name field, `deleteBy` the schedule it copies from its target.
  datatype Edge = Edge(reference: Id, kind: string, name: Option<string>, deleteBy: Option<int>)

  // `edgesOmit` holds the names edges_diff_omit lists; `payload` stands for every slot no
  // rule modelled here reads.
  datatype Claim = Claim(
    kind: string, edges: seq<Edge>, createdAt: int, height: nat,
    deleteBy: Option<int>, edgesOmit: set<string>, payload: nat)

  type Store = map<Id, Claim>

  function EdgeSet(es: seq<Edge>): set<Edge> {
    set e | e in es
  }

  function References(es: seq<Edge>): (r: seq<Id>)
    ensures |r| == |es|
    ensures forall b :: b in r <==> b in Targets(EdgeSet(es))
  {
    var r := seq(|es|, i requires 0 <= i < |es| => es[i].reference);
    assert forall e :: e in es ==> exists i :: 0 <= i < |es| && es[i] == e && r[i] == e.reference;
    r
  }

  function Targets(es: set<Edge>): set<Id> {
    set e | e in es :: e.reference
  }

  /** The graph of the edges as stored: the delta of a diff claim, not its overlay. */
  function Delta(s: Store): (g: Graph)
    ensures g.Keys == s.Keys
  {
    map id | id in s :: Targets(EdgeSet(s[id].edges))
  }

  ghost predicate Ranks(s: Store, rank: Id -> nat) {
    forall a, e :: a in s && e in s[a].edges ==> rank(e.reference) < rank(a)
  }

  /** No chain of references returns to where it began. */
  ghost predicate Acyclic(s: Store) {
    exists rank: Id -> nat :: Ranks(s, rank)
  }

  ghost function Rank(s: Store): (rank: Id -> nat)
    requires Acyclic(s)
    ensures Ranks(s, rank)
  {
    var rank: Id -> nat :| Ranks(s, rank);
    rank
  }

  predicate Grows(s: Store, s': Store) {
    forall a :: a in s ==> a in s' && s'[a] == s[a]
  }

  lemma GrowsDelta(s: Store, s': Store)
    requires Grows(s, s')
    ensures Extends(Delta(s), Delta(s'))
  {
  }

  /** Every claim but the contributor's own names the contributor who made it. */
  predicate Attributed(s: Store, self: Id) {
    && self in s && s[self].edges == []
    && forall a :: a in s && a != self ==> Edge(self, EDGE_CONTRIBUTOR, None, None) in s[a].edges
  }

  // ---- Content addressing ----

  ghost predicate Injective(digest: Claim -> Id) {
    forall c: Claim, c': Claim :: digest(c) == digest(c') ==> c == c'
  }

  ghost predicate Precedes(digest: Claim -> Id, rank: Id -> nat) {
    forall c: Claim, e: Edge :: e in c.edges ==> rank(e.reference) < rank(digest(c))
  }

  /** What a content address promises: it names one claim, and a claim can only be addressed
      once everything it references is. */
  ghost predicate Addresses(digest: Claim -> Id) {
    Injective(digest) && exists rank: Id -> nat :: Precedes(digest, rank)
  }

  ghost predicate ContentAddressed(s: Store, digest: Claim -> Id) {
    forall a :: a in s ==> digest(s[a]) == a
  }

  function Put(s: Store, digest: Claim -> Id, c: Claim): Store {
    s[digest(c) := c]
  }

  /** Storing a claim overwrites nothing: an id already held names the same claim. */
  lemma PutGrows(s: Store, digest: Claim -> Id, c: Claim)
    requires Injective(digest) && ContentAddressed(s, digest)
    ensures Grows(s, Put(s, digest, c)) && ContentAddressed(Put(s, digest, c), digest)
  {
  }

  lemma AddressedAcyclic(s: Store, digest: Claim -> Id)
    requires Addresses(digest) && ContentAddressed(s, digest)
    ensures Acyclic(s)
  {
    var rank: Id -> nat :| Precedes(digest, rank);
    forall a, e | a in s && e in s[a].edges ensures rank(e.reference) < rank(a) {
      assert digest(s[a]) == a;
    }
    assert Ranks(s, rank);
  }
}
