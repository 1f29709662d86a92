/** The field and content side of a diff (node.go): a node over its materialised predecessor,
    what it presents, and the plain node that presents the same. */
module Nodes {
  import opened Options

  const FIELDS_DIFF_OMIT := "fields_diff_omit"

  // Content as a node states it, inline or by hash, with the encoding that goes along.
  datatype Content = Inline(bytes: seq<bv8>, encoding: string) | External(hash: nat, size: nat, encoding: string)

  // A node and, once the loader has been there, the predecessor it is a diff of.
  datatype Node = Node(fields: map<string, string>, content: Option<Content>, pred: Option<Node>)

  // How the lines of an omit list are split into names.
  type Lines = string -> set<string>

  function Omits(n: Node, lines: Lines): set<string> {
    if FIELDS_DIFF_OMIT in n.fields then lines(n.fields[FIELDS_DIFF_OMIT]) else {}
  }

  /** The fields a read presents. */
  function FieldMap(n: Node, lines: Lines): map<string, string> {
    match n.pred
    case None => n.fields
    case Some(p) => (FieldMap(p, lines) - Omits(n, lines)) + n.fields
  }

  // ---- The loop that merges them ----

  method Copied(from: map<string, string>) returns (m: map<string, string>)
    ensures m == from
  {
    m := map[];
    var left := from.Keys;
    while left != {}
      invariant left <= from.Keys && m == from - left
      decreases left
    {
      var k :| k in left;
      m, left := m[k := from[k]], left - {k};
    }
  }

  method Without(from: map<string, string>, names: set<string>) returns (m: map<string, string>)
    ensures m == from - names
  {
    m := from;
    var left := names;
    while left != {}
      invariant left <= names && m == from - (names - left)
      decreases left
    {
      var k :| k in left;
      m, left := m - {k}, left - {k};
    }
  }

  method Overlaid(base: map<string, string>, own: map<string, string>) returns (m: map<string, string>)
    ensures m == base + own
  {
    m := base;
    var left := own.Keys;
    while left != {}
      invariant left <= own.Keys && m == base + (own - left)
      decreases left
    {
      var k :| k in left;
      m, left := m[k := own[k]], left - {k};
    }
  }

  /** computeDiffFields, the predecessor's map being merged already. */
  method ComputeDiffFields(n: Node, lines: Lines) returns (m: map<string, string>)
    requires n.pred.Some?
    ensures forall k, v :: k in m && m[k] == v <==> Presents(n, lines, k, v)
  {
    m := Copied(FieldMap(n.pred.value, lines));
    m := Without(m, Omits(n, lines));
    m := Overlaid(m, n.fields);
    forall k, v ensures k in m && m[k] == v <==> Presents(n, lines, k, v) {
      FieldExactly(n, lines, k, v);
    }
  }

  // ---- What is presented ----

  function Depth(n: Node): nat {
    if n.pred.None? then 0 else Depth(n.pred.value) + 1
  }

  /** The node d diffs below n. */
  function Below(n: Node, d: nat): Node
    requires d <= Depth(n)
  {
    if d == 0 then n else Below(n.pred.value, d - 1)
  }

  predicate Silent(n: Node, lines: Lines, k: string) {
    k !in n.fields && k !in Omits(n, lines)
  }

  /** Some node of the chain states k as v, and none nearer states it or omits it. */
  ghost predicate Presents(n: Node, lines: Lines, k: string, v: string) {
    exists d :: PresentsFrom(n, lines, k, v, d)
  }

  ghost predicate PresentsFrom(n: Node, lines: Lines, k: string, v: string, d: nat) {
    && d <= Depth(n) && k in Below(n, d).fields && Below(n, d).fields[k] == v
    && forall e: nat :: e < d ==> Silent(Below(n, e), lines, k)
  }

  /** A field is presented as the nearest node states it that states it before any omits it. */
  lemma {:induction false} FieldExactly(n: Node, lines: Lines, k: string, v: string)
    ensures k in FieldMap(n, lines) && FieldMap(n, lines)[k] == v <==> Presents(n, lines, k, v)
  {
    if k in n.fields {
      StatedHere(n, lines, k, v);
    } else if n.pred.None? || k in Omits(n, lines) {
      NothingBelow(n, lines, k, v);
    } else {
      FieldExactly(n.pred.value, lines, k, v);
      if d: nat :| PresentsFrom(n.pred.value, lines, k, v, d) {
        OneDeeper(n, lines, k, v, d);
      }
      if d: nat :| PresentsFrom(n, lines, k, v, d) {
        assert d > 0;
        OneDeeper(n, lines, k, v, d - 1);
      }
    }
  }

  lemma StatedHere(n: Node, lines: Lines, k: string, v: string)
    requires k in n.fields
    ensures Presents(n, lines, k, v) <==> n.fields[k] == v
  {
    assert Below(n, 0) == n;
    if n.fields[k] == v {
      assert PresentsFrom(n, lines, k, v, 0);
    }
    if d: nat :| d > 0 && PresentsFrom(n, lines, k, v, d) {
      NearerIsSilent(n, lines, k, v, d);
    }
  }

  lemma NearerIsSilent(n: Node, lines: Lines, k: string, v: string, d: nat)
    requires d > 0 && PresentsFrom(n, lines, k, v, d)
    ensures Silent(n, lines, k) && n.pred.Some?
  {
    assert Silent(Below(n, 0), lines, k);
  }

  lemma NothingBelow(n: Node, lines: Lines, k: string, v: string)
    requires k !in n.fields && (n.pred.None? || k in Omits(n, lines))
    ensures !Presents(n, lines, k, v)
  {
    if d: nat :| d > 0 && PresentsFrom(n, lines, k, v, d) {
      NearerIsSilent(n, lines, k, v, d);
    }
  }

  lemma OneDeeper(n: Node, lines: Lines, k: string, v: string, d: nat)
    requires n.pred.Some? && Silent(n, lines, k)
    ensures PresentsFrom(n, lines, k, v, d + 1) <==> PresentsFrom(n.pred.value, lines, k, v, d)
  {
    var p := n.pred.value;
    assert forall e: nat :: e <= Depth(p) ==> Below(n, e + 1) == Below(p, e);
    if PresentsFrom(n, lines, k, v, d + 1) {
      forall e: nat | e < d ensures Silent(Below(p, e), lines, k) {
        assert Silent(Below(n, e + 1), lines, k);
      }
    }
    if PresentsFrom(p, lines, k, v, d) {
      forall e: nat | e < d + 1 ensures Silent(Below(n, e), lines, k) {
        assert e > 0 ==> Silent(Below(p, e - 1), lines, k);
      }
    }
  }

  // ---- Content and flattening ----

  /** The node whose content is presented: the first that has any, else the last. */
  function ContentSource(n: Node): Node {
    if n.content.Some? || n.pred.None? then n else ContentSource(n.pred.value)
  }

  ghost predicate ContentFrom(n: Node, c: Content, d: nat) {
    d <= Depth(n) && Below(n, d).content == Some(c) && forall e: nat :: e < d ==> Below(n, e).content.None?
  }

  /** Content is inherited whole, from the nearest node that has any. */
  lemma {:induction false} ContentExactly(n: Node, c: Content)
    ensures ContentSource(n).content == Some(c) <==> exists d :: ContentFrom(n, c, d)
  {
    assert Below(n, 0) == n;
    if n.content.Some? || n.pred.None? {
      assert n.content == Some(c) ==> ContentFrom(n, c, 0);
      if d: nat :| d > 0 && ContentFrom(n, c, d) {
        NearerHasNone(n, c, d);
      }
    } else {
      ContentExactly(n.pred.value, c);
      if d: nat :| ContentFrom(n.pred.value, c, d) {
        ContentDeeper(n, c, d);
      }
      if d: nat :| ContentFrom(n, c, d) {
        assert d > 0;
        ContentDeeper(n, c, d - 1);
      }
    }
  }

  lemma NearerHasNone(n: Node, c: Content, d: nat)
    requires d > 0 && ContentFrom(n, c, d)
    ensures n.content.None? && n.pred.Some?
  {
    assert Below(n, 0).content.None?;
  }

  lemma ContentDeeper(n: Node, c: Content, d: nat)
    requires n.pred.Some? && n.content.None?
    ensures ContentFrom(n, c, d + 1) <==> ContentFrom(n.pred.value, c, d)
  {
    var p := n.pred.value;
    assert forall e: nat :: e <= Depth(p) ==> Below(n, e + 1) == Below(p, e);
    if ContentFrom(n, c, d + 1) {
      forall e: nat | e < d ensures Below(p, e).content.None? {
        assert Below(n, e + 1).content.None?;
      }
    }
    if ContentFrom(p, c, d) {
      forall e: nat | e < d + 1 ensures Below(n, e).content.None? {
        assert e > 0 ==> Below(p, e - 1).content.None?;
      }
    }
  }

  function Flattened(n: Node, lines: Lines): Node {
    if n.pred.None? then n else Node(FieldMap(n, lines), ContentSource(n).content, None)
  }

  /** A flattened node needs no predecessor and presents what the diff did. */
  lemma FlattenedPresents(n: Node, lines: Lines)
    ensures var f := Flattened(n, lines);
      && f.pred.None? && FieldMap(f, lines) == FieldMap(n, lines)
      && ContentSource(f).content == ContentSource(n).content && Flattened(f, lines) == f
  {
  }

  lemma SameOver(n: Node, lines: Lines, p: Node)
    requires n.pred.Some? && Flattened(p, lines) == Flattened(n.pred.value, lines)
    ensures Flattened(n.(pred := Some(p)), lines) == Flattened(n, lines)
  {
    FlattenedPresents(p, lines);
    FlattenedPresents(n.pred.value, lines);
  }

  /** So a diff over a flattened predecessor presents what one over the chain does: a read may
      resolve the chain one node at a time. */
  lemma {:induction false} FlattenedBelow(n: Node, lines: Lines, d: nat)
    requires d <= Depth(n)
    ensures Flattened(Replaced(n, lines, d), lines) == Flattened(n, lines)
    decreases d
  {
    if d == 0 {
      FlattenedPresents(n, lines);
    } else {
      FlattenedBelow(n.pred.value, lines, d - 1);
      SameOver(n, lines, Replaced(n.pred.value, lines, d - 1));
    }
  }

  /** n with the node d diffs below it flattened. */
  function Replaced(n: Node, lines: Lines, d: nat): Node
    requires d <= Depth(n)
  {
    if d == 0 then Flattened(n, lines) else n.(pred := Some(Replaced(n.pred.value, lines, d - 1)))
  }
}
