/** A partitioned store (adapter/storage/partition/partition.go): keys are routed by value, and
    each grouped operation answers as one store over the union of the shards would. */
module Partitions {
  import opened Options

  type Byte = b: int | 0 <= b < 256

  type Key = seq<Byte>

  // Claims, blobs and tags are routed alike. V is whatever a shard keeps under a key.
  type Shard<V> = map<Key, V>

  // ---- Routing ----

  /** A key read as a base-256 numeral, its first byte the most significant. */
  function Numeral(s: Key): nat {
    if s == [] then 0 else Numeral(s[..|s| - 1]) * 256 + s[|s| - 1]
  }

  lemma ModStep(x: nat, b: nat, n: nat)
    requires n > 0
    ensures (x * 256 + b) % n == ((x % n) * 256 + b) % n
  {
    var q := x / n;
    assert x * 256 + b == ((x % n) * 256 + b) + n * (q * 256) by {
      assert x == n * q + x % n;
    }
    ModMultiple((x % n) * 256 + b, q * 256, n);
  }

  lemma {:induction false} ModMultiple(y: nat, k: nat, n: nat)
    requires n > 0
    ensures (y + n * k) % n == y % n
  {
    if k > 0 {
      ModMultiple(y, k - 1, n);
      Distribute(n, k);
      ModAdd(y + n * (k - 1), n);
    }
  }

  lemma Distribute(n: nat, k: nat)
    requires k > 0
    ensures n * k == n * (k - 1) + n
  {
  }

  lemma AtLeast(n: nat, d: nat)
    requires d > 0
    ensures n * d >= n
  {
  }

  lemma Spread(n: nat, a: int, b: int)
    ensures n * a - n * b == n * (a - b)
  {
  }

  lemma OneRemainder(n: nat, q: nat, r: nat, q': nat, r': nat)
    requires n * q + r == n * q' + r' && r < n && r' < n
    ensures r == r'
  {
    Spread(n, q, q');
    Spread(n, q', q);
    if q > q' {
      AtLeast(n, q - q');
    } else if q' > q {
      AtLeast(n, q' - q);
    }
  }

  lemma ModAdd(z: nat, n: nat)
    requires n > 0
    ensures (z + n) % n == z % n
  {
    Distribute(n, z / n + 1);
    OneRemainder(n, z / n + 1, z % n, (z + n) / n, (z + n) % n);
  }

  function ShardFor(key: Key, n: nat): (s: nat)
    requires n > 0
    ensures s < n
  {
    Numeral(key) % n
  }

  /** shardOf, by Horner: the remainder is taken at every byte, so the number stays small. */
  method ShardOf(key: Key, n: nat) returns (x: nat)
    requires n > 0
    ensures x == ShardFor(key, n) && x < n
  {
    x := 0;
    for i := 0 to |key|
      invariant x == Numeral(key[..i]) % n
    {
      assert key[..i + 1][..i] == key[..i];
      ModStep(Numeral(key[..i]), key[i], n);
      x := (x * 256 + key[i]) % n;
    }
    assert key[..|key|] == key;
  }

  // ---- Grouping ----

  ghost predicate Grouped(keys: seq<Option<Key>>, upto: nat, groups: seq<seq<nat>>) {
    && |groups| > 0
    && (forall s, k :: 0 <= s < |groups| && 0 <= k < |groups[s]| ==>
          var i := groups[s][k]; i < upto && i < |keys| && keys[i].Some? && ShardFor(keys[i].value, |groups|) == s)
    && (forall i :: 0 <= i < upto && i < |keys| && keys[i].Some? ==> i in groups[ShardFor(keys[i].value, |groups|)])
  }

  /** groupIds: each key's position, under its shard. Positions without a key are in no group. */
  method GroupIds(keys: seq<Option<Key>>, n: nat) returns (groups: seq<seq<nat>>)
    requires n > 0
    ensures |groups| == n && Grouped(keys, |keys|, groups)
  {
    groups := seq(n, _ => []);
    for i := 0 to |keys|
      invariant |groups| == n && Grouped(keys, i, groups)
    {
      if keys[i].None? {
        continue;
      }
      var s := ShardOf(keys[i].value, n);
      GroupedMore(keys, i, groups, s);
      groups := groups[s := groups[s] + [i]];
    }
  }

  lemma GroupedMore(keys: seq<Option<Key>>, i: nat, groups: seq<seq<nat>>, s: nat)
    requires i < |keys| && Grouped(keys, i, groups) && keys[i].Some? && s == ShardFor(keys[i].value, |groups|)
    ensures Grouped(keys, i + 1, groups[s := groups[s] + [i]])
  {
    var groups' := groups[s := groups[s] + [i]];
    forall j | 0 <= j < i + 1 && keys[j].Some? ensures j in groups'[ShardFor(keys[j].value, |groups|)] {
      var t := ShardFor(keys[j].value, |groups|);
      if j < i && t == s {
        assert j in groups[s];
        assert groups'[s] == groups[s] + [i];
      }
    }
  }

  // ---- One store ----

  /** Every key lies on the shard it routes to, and there alone. */
  ghost predicate Placed<V>(shards: seq<Shard<V>>) {
    |shards| > 0 && forall s, k :: 0 <= s < |shards| && k in shards[s] ==> ShardFor(k, |shards|) == s
  }

  /** What the partition holds under k, as one store. */
  function Lookup<V>(shards: seq<Shard<V>>, k: Key): Option<V>
    requires |shards| > 0
  {
    var shard := shards[ShardFor(k, |shards|)];
    if k in shard then Some(shard[k]) else None
  }

  /** What a read of several keys answers, position by position. */
  ghost predicate Answered<V>(shards: seq<Shard<V>>, keys: seq<Option<Key>>, out: seq<Option<V>>)
    requires |shards| > 0
  {
    |out| == |keys| && forall i :: 0 <= i < |keys| ==>
      out[i] == if keys[i].Some? then Lookup(shards, keys[i].value) else None
  }

  /** What the groups read so far account for. */
  ghost predicate Partly<V>(shards: seq<Shard<V>>, keys: seq<Option<Key>>, out: seq<Option<V>>, upto: nat)
    requires |shards| > 0
  {
    |out| == |keys| && forall i :: 0 <= i < |keys| ==>
      out[i] == if keys[i].Some? && ShardFor(keys[i].value, |shards|) < upto
        then Lookup(shards, keys[i].value) else None
  }

  /** One shard's answers, scattered back to the positions they were asked at. */
  method Scatter<V>(shard: Shard<V>, keys: seq<Option<Key>>, idx: seq<nat>, out: seq<Option<V>>)
    returns (out': seq<Option<V>>)
    requires |out| == |keys| && forall k :: 0 <= k < |idx| ==> idx[k] < |keys| && keys[idx[k]].Some?
    ensures |out'| == |keys|
    ensures forall i :: 0 <= i < |keys| && i !in idx ==> out'[i] == out[i]
    ensures forall i :: 0 <= i < |keys| && i in idx ==>
      keys[i].Some? && out'[i] == (if keys[i].value in shard then Some(shard[keys[i].value]) else None)
  {
    out' := out;
    for k := 0 to |idx|
      invariant |out'| == |keys|
      invariant forall i :: 0 <= i < |keys| && i !in idx[..k] ==> out'[i] == out[i]
      invariant forall i :: 0 <= i < |keys| && i in idx[..k] ==>
        keys[i].Some? && out'[i] == (if keys[i].value in shard then Some(shard[keys[i].value]) else None)
    {
      assert idx[..k + 1] == idx[..k] + [idx[k]];
      var key := keys[idx[k]].value;
      out' := out'[idx[k] := if key in shard then Some(shard[key]) else None];
    }
    assert idx[..|idx|] == idx;
  }

  lemma PartlyMore<V>(shards: seq<Shard<V>>, keys: seq<Option<Key>>, groups: seq<seq<nat>>, out: seq<Option<V>>,
      out': seq<Option<V>>, s: nat)
    requires |groups| == |shards| && Grouped(keys, |keys|, groups) && s < |shards| && Partly(shards, keys, out, s)
    requires |out'| == |keys| && forall i :: 0 <= i < |keys| && i !in groups[s] ==> out'[i] == out[i]
    requires forall i :: 0 <= i < |keys| && i in groups[s] ==>
      keys[i].Some? && out'[i] == (if keys[i].value in shards[s] then Some(shards[s][keys[i].value]) else None)
    ensures Partly(shards, keys, out', s + 1)
  {
    forall i | 0 <= i < |keys|
      ensures i in groups[s] <==> keys[i].Some? && ShardFor(keys[i].value, |shards|) == s
    {
      if i in groups[s] {
        var k :| 0 <= k < |groups[s]| && groups[s][k] == i;
      }
    }
  }

  /** Grouped reads: GetContents, HasClaims, GetClaimTags and the rest answer positionally, as
      one store holding every shard's entries would. */
  method Read<V>(shards: seq<Shard<V>>, keys: seq<Option<Key>>) returns (ok: bool, out: seq<Option<V>>)
    requires |shards| > 0
    ensures ok ==> Answered(shards, keys, out)
  {
    ok, out := true, seq(|keys|, _ => None);
    var groups := GroupIds(keys, |shards|);
    for s := 0 to |shards|
      invariant Partly(shards, keys, out, s)
    {
      var fails: bool := *;
      if fails && groups[s] != [] {
        ok := false;
        return;
      }
      ghost var was := out;
      out := Scatter(shards[s], keys, groups[s], out);
      PartlyMore(shards, keys, groups, was, out, s);
    }
  }

  // ---- Writes ----

  /** What one store would hold after taking the entries in order. */
  function Taken<V>(held: Option<V>, entries: seq<(Key, V)>, k: Key): Option<V> {
    if entries == [] then held
    else
      var last := entries[|entries| - 1];
      if last.0 == k then Some(last.1) else Taken(held, entries[..|entries| - 1], k)
  }

  function RoutedTo<V>(entries: seq<(Key, V)>, n: nat, s: nat): seq<(Key, V)>
    requires n > 0
  {
    if entries == [] then []
    else
      var rest, last := RoutedTo(entries[..|entries| - 1], n, s), entries[|entries| - 1];
      if ShardFor(last.0, n) == s then rest + [last] else rest
  }

  method GroupEntries<V>(entries: seq<(Key, V)>, n: nat) returns (groups: seq<seq<(Key, V)>>)
    requires n > 0
    ensures |groups| == n && forall s :: 0 <= s < n ==> groups[s] == RoutedTo(entries, n, s)
  {
    groups := seq(n, _ => []);
    for i := 0 to |entries|
      invariant |groups| == n && forall s :: 0 <= s < n ==> groups[s] == RoutedTo(entries[..i], n, s)
    {
      assert entries[..i + 1][..i] == entries[..i];
      var s := ShardOf(entries[i].0, n);
      groups := groups[s := groups[s] + [entries[i]]];
    }
    assert entries[..|entries|] == entries;
  }

  /** The shard a key routes to sees every entry that could change it, in order. */
  lemma {:induction false} RoutedSuffices<V>(held: Option<V>, entries: seq<(Key, V)>, n: nat, k: Key)
    requires n > 0
    ensures Taken(held, RoutedTo(entries, n, ShardFor(k, n)), k) == Taken(held, entries, k)
  {
    if entries != [] {
      var rest, last := entries[..|entries| - 1], entries[|entries| - 1];
      RoutedSuffices(held, rest, n, k);
      var routed := RoutedTo(rest, n, ShardFor(k, n));
      assert (routed + [last])[..|routed|] == routed;
    }
  }

  lemma {:induction false} RoutedElsewhere<V>(held: Option<V>, entries: seq<(Key, V)>, n: nat, s: nat, k: Key)
    requires n > 0 && s != ShardFor(k, n)
    ensures Taken(held, RoutedTo(entries, n, s), k) == held
  {
    if entries != [] {
      var rest, last := entries[..|entries| - 1], entries[|entries| - 1];
      RoutedElsewhere(held, rest, n, s, k);
      var routed := RoutedTo(rest, n, s);
      assert (routed + [last])[..|routed|] == routed;
    }
  }

  function At<V>(shard: Shard<V>, k: Key): Option<V> {
    if k in shard then Some(shard[k]) else None
  }

  method PutInto<V>(shard: Shard<V>, entries: seq<(Key, V)>) returns (shard': Shard<V>)
    ensures forall k :: At(shard', k) == Taken(At(shard, k), entries, k)
  {
    shard' := shard;
    for i := 0 to |entries|
      invariant forall k :: At(shard', k) == Taken(At(shard, k), entries[..i], k)
    {
      assert entries[..i + 1][..i] == entries[..i];
      ghost var was := shard';
      shard' := shard'[entries[i].0 := entries[i].1];
      assert forall k :: At(shard', k) == if k == entries[i].0 then Some(entries[i].1) else At(was, k);
    }
    assert entries[..|entries|] == entries;
  }

  /** What k may hold after a write that failed: what it held, or what an entry for it brought. */
  ghost predicate Among<V>(held: Option<V>, entries: seq<(Key, V)>, k: Key, v: Option<V>) {
    v == held || exists e :: e in entries && e.0 == k && v == Some(e.1)
  }

  lemma {:induction false} TakenAmong<V>(held: Option<V>, entries: seq<(Key, V)>, k: Key)
    ensures Among(held, entries, k, Taken(held, entries, k))
  {
    if entries != [] {
      var last := entries[|entries| - 1];
      assert last in entries;
      TakenAmong(held, entries[..|entries| - 1], k);
    }
  }

  lemma {:induction false} RoutedHere<V>(entries: seq<(Key, V)>, n: nat, s: nat)
    requires n > 0
    ensures forall e :: e in RoutedTo(entries, n, s) ==> e in entries && ShardFor(e.0, n) == s
  {
    if entries != [] {
      RoutedHere(entries[..|entries| - 1], n, s);
    }
  }

  /** A batch may land in part where the store fails. */
  method LandSome<V>(entries: seq<(Key, V)>) returns (landed: seq<(Key, V)>)
    ensures forall e :: e in landed ==> e in entries
  {
    landed := [];
    for i := 0 to |entries|
      invariant forall e :: e in landed ==> e in entries
    {
      var lands: bool := *;
      if lands {
        landed := landed + [entries[i]];
      }
    }
  }

  class Partition<V> {
    var shards: seq<Shard<V>>

    ghost predicate Valid()
      reads this
    {
      Placed(shards)
    }

    constructor (n: nat)
      requires n > 0
      ensures Valid() && |shards| == n && forall k :: Lookup(shards, k) == None
    {
      shards := seq(n, _ => map[]);
    }

    /** PutClaims and PutContents: scattered, the entries change what one store would change. A
        shard that fails may have taken some of its own, and leaves those before it written. */
    method Put(entries: seq<(Key, V)>) returns (ok: bool)
      requires Valid()
      modifies this
      ensures Valid() && |shards| == |old(shards)|
      ensures ok ==> forall k :: Lookup(shards, k) == Taken(old(Lookup(shards, k)), entries, k)
      ensures !ok ==> forall k :: Among(old(Lookup(shards, k)), entries, k, Lookup(shards, k))
    {
      ok := true;
      ghost var was, n := shards, |shards|;
      var groups := GroupEntries(entries, |shards|);
      var s := 0;
      while s < |shards|
        invariant 0 <= s <= |shards| == n && Placed(shards)
        invariant forall k ::
          Lookup(shards, k) == if ShardFor(k, n) < s then Taken(Lookup(was, k), entries, k) else Lookup(was, k)
      {
        ok := *;
        if !ok && groups[s] != [] {
          var landed := LandSome(groups[s]);
          RoutedHere(entries, n, s);
          var part := PutInto(shards[s], landed);
          PutPart(was, shards, part, entries, landed, s);
          shards := shards[s := part];
          return;
        }
        ok := true;
        var shard' := PutInto(shards[s], groups[s]);
        PutOne(shards, shard', entries, s);
        shards := shards[s := shard'];
        s := s + 1;
      }
    }

    /** DeleteClaims and DeleteContents: each key is removed where it lies. On a failure some of
        them may be gone, and nothing else. */
    method Delete(keys: seq<Option<Key>>) returns (ok: bool)
      requires Valid()
      modifies this
      ensures Valid() && |shards| == |old(shards)|
      ensures ok ==> forall k :: Lookup(shards, k) == if Some(k) in keys then None else old(Lookup(shards, k))
      ensures !ok ==> forall k ::
        Lookup(shards, k) == old(Lookup(shards, k)) || (Some(k) in keys && Lookup(shards, k) == None)
    {
      ok := true;
      ghost var was, n := shards, |shards|;
      var groups := GroupIds(keys, |shards|);
      var s := 0;
      while s < |shards|
        invariant 0 <= s <= |shards| == n && Placed(shards)
        invariant forall k ::
          Lookup(shards, k) == if ShardFor(k, n) < s && Some(k) in keys then None else Lookup(was, k)
      {
        ok := *;
        var gone := KeysAt(keys, groups[s]);
        GoneExactly(keys, groups, s, gone);
        if !ok && groups[s] != [] {
          var part: set<Key> :| part <= gone;
          DeleteOne(shards, shards[s] - part, s, part);
          shards := shards[s := shards[s] - part];
          return;
        }
        ok := true;
        var shard' := shards[s] - gone;
        DeleteOne(shards, shard', s, gone);
        shards := shards[s := shard'];
        s := s + 1;
      }
    }
  }

  lemma PutOne<V>(shards: seq<Shard<V>>, shard': Shard<V>, entries: seq<(Key, V)>, s: nat)
    requires Placed(shards) && s < |shards|
    requires forall k :: At(shard', k) == Taken(At(shards[s], k), RoutedTo(entries, |shards|, s), k)
    ensures Placed(shards[s := shard'])
    ensures forall k ::
      Lookup(shards[s := shard'], k) == if ShardFor(k, |shards|) == s
        then Taken(Lookup(shards, k), entries, k) else Lookup(shards, k)
  {
    forall k
      ensures At(shard', k) ==
        if ShardFor(k, |shards|) == s then Taken(At(shards[s], k), entries, k) else At(shards[s], k)
    {
      if ShardFor(k, |shards|) == s {
        RoutedSuffices(At(shards[s], k), entries, |shards|, k);
      } else {
        RoutedElsewhere(At(shards[s], k), entries, |shards|, s, k);
      }
    }
    forall k | k in shard' ensures ShardFor(k, |shards|) == s {
      assert At(shard', k).Some?;
    }
  }

  /** Where the shard fails each key is as before or as some entry left it. */
  lemma PutPart<V>(
    was: seq<Shard<V>>, shards: seq<Shard<V>>, shard': Shard<V>, entries: seq<(Key, V)>, landed: seq<(Key, V)>, s: nat)
    requires Placed(shards) && s < |shards| == |was|
    requires forall e :: e in landed ==> e in entries && ShardFor(e.0, |shards|) == s
    requires forall k :: At(shard', k) == Taken(At(shards[s], k), landed, k)
    requires forall k :: Lookup(shards, k) in {Lookup(was, k), Taken(Lookup(was, k), entries, k)}
    ensures Placed(shards[s := shard'])
    ensures forall k :: Among(Lookup(was, k), entries, k, Lookup(shards[s := shard'], k))
  {
    forall k
      ensures Among(Lookup(was, k), entries, k, Lookup(shards[s := shard'], k))
      ensures k in shard' ==> ShardFor(k, |shards|) == s
    {
      TakenAmong(At(shards[s], k), landed, k);
      TakenAmong(Lookup(was, k), entries, k);
    }
  }

  method KeysAt(keys: seq<Option<Key>>, idx: seq<nat>) returns (r: set<Key>)
    requires forall k :: 0 <= k < |idx| ==> idx[k] < |keys| && keys[idx[k]].Some?
    ensures forall x :: x in r <==> exists k :: 0 <= k < |idx| && keys[idx[k]].value == x
  {
    r := {};
    for k := 0 to |idx|
      invariant forall x :: x in r <==> exists j :: 0 <= j < k && keys[idx[j]].value == x
    {
      r := r + {keys[idx[k]].value};
    }
  }

  lemma GoneExactly(keys: seq<Option<Key>>, groups: seq<seq<nat>>, s: nat, gone: set<Key>)
    requires Grouped(keys, |keys|, groups) && s < |groups|
    requires forall x :: x in gone <==> exists k :: 0 <= k < |groups[s]| && keys[groups[s][k]].value == x
    ensures forall x :: x in gone <==> Some(x) in keys && ShardFor(x, |groups|) == s
  {
    forall x ensures x in gone <==> Some(x) in keys && ShardFor(x, |groups|) == s {
      if Some(x) in keys && ShardFor(x, |groups|) == s {
        var i :| 0 <= i < |keys| && keys[i] == Some(x);
        assert i in groups[s];
        var k :| 0 <= k < |groups[s]| && groups[s][k] == i;
      }
      if x in gone {
        var k :| 0 <= k < |groups[s]| && keys[groups[s][k]].value == x;
        assert keys[groups[s][k]] == Some(x);
      }
    }
  }

  lemma DeleteOne<V>(shards: seq<Shard<V>>, shard': Shard<V>, s: nat, gone: set<Key>)
    requires Placed(shards) && s < |shards| && shard' == shards[s] - gone
    requires forall x :: x in gone ==> ShardFor(x, |shards|) == s
    ensures Placed(shards[s := shard'])
    ensures forall k :: Lookup(shards[s := shard'], k) == if k in gone then None else Lookup(shards, k)
  {
  }
}
