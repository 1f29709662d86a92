/** Where runs start: the claims Found mints leave a state the merge protocol can run from, and
    there are such claims, so what holds of every run is not said of none. */
module Foundings {
  import opened Addressing
  import opened Claims
  import opened Folds
  import opened Graphs
  import opened MergeRuns
  import opened Merges
  import opened Minting
  import opened Options
  import Bookmarks
  import Sequencers

  /** The claims of a founding, each dated by a later tick: the Sequencer's own, the first
      contributor, the empty table, and the table binding the branch to that contributor. */
  datatype Genesis = Genesis(first: Id, k0: Id, k1: Id, own: int, t1: int, t2: int, t3: int)

  ghost predicate Minted(w: World, s: Store, g: Genesis, branch: string) {
    && g.own <= g.t1 <= g.t2 <= g.t3
    && Settled(s, w.extra, g.own, w.self)
    && MintedOver(s, w.extra, g.t1, {w.self}, g.first)
    && MintedOver(s, w.extra, g.t2, {w.self}, g.k0) && IsTable(s[g.k0], None, w.self, map[])
    && MintedOver(s, w.extra, g.t3, {g.k0, w.self, g.first}, g.k1)
    && IsTable(s[g.k1], Some(g.k0), w.self, map[branch := g.first])
  }

  /** What Found leaves when it succeeds: only the second table is bookmarked. */
  function Started(w: World, s: Store, g: Genesis, branch: string): State {
    State(s, map[0 := Bookmarks.Entry(g.k1)], 0, g.t3, g.k1, map[branch := g.first],
          {w.self, g.first, g.k0, g.k1}, true, 0, map[], [], Free, {}, false)
  }

  lemma SettledLater(s: Store, extra: Claim -> bool, now: int, now': int, r: Id)
    requires Settled(s, extra, now, r) && now <= now'
    ensures Settled(s, extra, now', r)
  {
    SettledGrows(s, s, extra, now, now', r);
  }

  lemma MintedSettled(w: World, s: Store, g: Genesis, branch: string)
    requires Minted(w, s, g, branch)
    ensures AllSettled(s, w.extra, g.t3, {w.self, g.first, g.k0, g.k1})
  {
    SettledLater(s, w.extra, g.own, g.t1, w.self);
    SettledLater(s, w.extra, g.own, g.t2, w.self);
    SettledLater(s, w.extra, g.own, g.t3, w.self);
    MintSettled(s, w.extra, g.t1, {w.self}, g.first);
    MintSettled(s, w.extra, g.t2, {w.self}, g.k0);
    SettledLater(s, w.extra, g.t1, g.t3, g.first);
    SettledLater(s, w.extra, g.t2, g.t3, g.k0);
    MintSettled(s, w.extra, g.t3, {g.k0, w.self, g.first}, g.k1);
  }

  /** The head of a founding is an open archive of the one branch. */
  lemma TablesOpen(s: Store, self: Id, k0: Id, k1: Id, heads: map<string, Id>)
    requires Acyclic(s) && k0 in s && IsTable(s[k0], None, self, map[])
    requires k1 in s && IsTable(s[k1], Some(k0), self, heads)
    ensures IsOpen(s, k1) && Branches(s, k1) == heads && TabularAt(s, k1)
  {
    FirstTable(s, k0, self, map[]);
    TableRestates(s, k1, k0, self, heads);
    Sequencers.OverlayIsAll(heads, heads);
    MintedIsTabular(s, k1, Some(k0), self, heads);
  }

  /** A founding that succeeded leaves the merge protocol where its runs start. */
  lemma FoundingStarts(w: World, s: Store, g: Genesis, branch: string)
    requires Addresses(w.digest) && ContentAddressed(s, w.digest) && Minted(w, s, g, branch)
    ensures Founded(w, Started(w, s, g, branch))
  {
    AddressedAcyclic(s, w.digest);
    TablesOpen(s, w.self, g.k0, g.k1, map[branch := g.first]);
    MintedSettled(w, s, g, branch);
  }

  // ---- A founding there is ----

  function By(self: Id): Edge {
    Edge(self, EDGE_CONTRIBUTOR, None, None)
  }

  function Node(kind: string, edges: seq<Edge>, at: int, height: nat): Claim {
    Claim(kind, edges, at, height, None, {}, 0)
  }

  ghost predicate HoldsGenesis(s: Store, self: Id, g: Genesis, branch: string) {
    && self in s && s[self] == Node(NODE_CONTRIBUTOR, [], 0, 0)
    && g.first in s && s[g.first] == Node(NODE_CONTRIBUTOR, [By(self)], 1, 1)
    && g.k0 in s && s[g.k0] == Node(NODE_BRANCHES, [By(self)], 2, 1)
    && g.k1 in s && s[g.k1] == Node(NODE_BRANCHES,
         [Edge(g.first, EDGE_BRANCH, Some(branch), None), By(self), Edge(g.k0, EDGE_DIFF, None, None)], 3, 2)
    && g.own == 0 && g.t1 == 1 && g.t2 == 2 && g.t3 == 3
  }

  lemma OwnSettled(s: Store, self: Id)
    requires self in s && s[self] == Node(NODE_CONTRIBUTOR, [], 0, 0)
    ensures Settled(s, _ => true, 0, self)
  {
  }

  lemma GenesisTables(s: Store, self: Id, g: Genesis, branch: string)
    requires HoldsGenesis(s, self, g, branch)
    ensures IsTable(s[g.k0], None, self, map[])
    ensures IsTable(s[g.k1], Some(g.k0), self, map[branch := g.first])
  {
  }

  lemma GenesisMinted(digest: Claim -> Id, s: Store, self: Id, g: Genesis, branch: string)
    requires HoldsGenesis(s, self, g, branch)
    ensures Minted(World(digest, self, _ => true), s, g, branch)
  {
    OwnSettled(s, self);
    GenesisTables(s, self, g, branch);
  }

  /** Whatever the digest, those claims stored under it are a founding. */
  lemma GenesisStored(digest: Claim -> Id, branch: string) returns (w: World, s: Store, g: Genesis)
    requires Injective(digest)
    ensures w.digest == digest && ContentAddressed(s, digest) && Minted(w, s, g, branch)
    ensures forall c :: w.extra(c)
  {
    var own := Node(NODE_CONTRIBUTOR, [], 0, 0);
    var self := digest(own);
    var first, k0 := Node(NODE_CONTRIBUTOR, [By(self)], 1, 1), Node(NODE_BRANCHES, [By(self)], 2, 1);
    var b, d := Edge(digest(first), EDGE_BRANCH, Some(branch), None), Edge(digest(k0), EDGE_DIFF, None, None);
    var k1 := Node(NODE_BRANCHES, [b, By(self), d], 3, 2);
    g := Genesis(digest(first), digest(k0), digest(k1), 0, 1, 2, 3);
    s := map[self := own, g.first := first, g.k0 := k0, g.k1 := k1];
    w := World(digest, self, _ => true);
    GenesisMinted(digest, s, self, g, branch);
  }

  ghost predicate Startable(branch: string) {
    exists w: World, st: State :: Founded(w, st) && branch in st.heads && forall c: Claim :: w.extra(c)
  }

  lemma AddressStarts(digest: Claim -> Id, branch: string)
    requires Addresses(digest)
    ensures Startable(branch)
  {
    var w, s, g := GenesisStored(digest, branch);
    FoundingStarts(w, s, g, branch);
    assert branch in Started(w, s, g, branch).heads;
  }

  /** So there are runs: a content address and an archive founded under it, whatever the branch. */
  lemma FoundingIsPossible(branch: string)
    ensures Startable(branch)
  {
    DigestAddresses();
    AddressStarts(Digest, branch);
  }
}
