/** A layered store (adapter/storage/stack/stack.go): each read descends the layers with the
    positions still pending, and answers position by position. */
module Stacks {
  import opened Graphs
  import opened Options

  datatype Blob = Intact(bytes: seq<bv8>) | Damaged

  // What one layer keeps: claims, as deltas or as materialised views, and content, either of any
  // size (`external`) or up to a cap.
  datatype Layer = Layer(claims: set<Id>, keepsDeltas: bool, blobs: map<Id, Blob>, external: bool, cap: nat)

  datatype Ref = Ref(hash: Id, size: nat)

  datatype Form = Delta | Materialized

  datatype Fetched = Fetched(id: Id, form: Form)

  predicate CouldHold(l: Layer, size: nat) {
    l.external || (l.cap > 0 && size <= l.cap)
  }

  // ---- Positions ----

  method AllPositions(n: nat) returns (s: seq<nat>)
    ensures forall i: nat :: i in s <==> i < n
  {
    s := [];
    for i := 0 to n
      invariant forall j: nat :: j in s <==> j < i
    {
      s := s + [i];
    }
  }

  /** The pending positions the layer has, and those still to be found below. */
  method Split(pending: seq<nat>, has: nat -> bool) returns (hit: seq<nat>, still: seq<nat>)
    ensures forall p: nat :: p in hit <==> p in pending && has(p)
    ensures forall p: nat :: p in still <==> p in pending && !has(p)
  {
    hit, still := [], [];
    for k := 0 to |pending|
      invariant forall p: nat :: p in hit <==> p in pending[..k] && has(p)
      invariant forall p: nat :: p in still <==> p in pending[..k] && !has(p)
    {
      assert pending[..k + 1] == pending[..k] + [pending[k]];
      if has(pending[k]) {
        hit := hit + [pending[k]];
      } else {
        still := still + [pending[k]];
      }
    }
    assert pending[..|pending|] == pending;
  }

  // ---- Has ----

  ghost predicate HeldBy(layers: seq<Layer>, upto: nat, id: Id) {
    exists l :: 0 <= l < upto && l < |layers| && id in layers[l].claims
  }

  /** HasClaims: true at each position whose claim some layer holds. */
  method HasClaims(layers: seq<Layer>, ids: seq<Id>) returns (ok: bool, out: seq<bool>)
    ensures ok ==> |out| == |ids| && forall i :: 0 <= i < |ids| ==> (out[i] <==> HeldBy(layers, |layers|, ids[i]))
  {
    ok, out := true, seq(|ids|, _ => false);
    var pending: seq<nat> := AllPositions(|ids|);
    var li := 0;
    while li < |layers| && pending != []
      invariant 0 <= li <= |layers| && |out| == |ids|
      invariant forall p: nat :: p in pending <==> p < |ids| && !HeldBy(layers, li, ids[p])
      invariant forall i :: 0 <= i < |ids| ==> (out[i] <==> HeldBy(layers, li, ids[i]))
      decreases |layers| - li
    {
      var fails: bool := *;
      if fails {
        ok := false;
        return;
      }
      var claims := layers[li].claims;
      var hit: seq<nat>, still: seq<nat> := Split(pending, (p: nat) => p < |ids| && ids[p] in claims);
      forall i | 0 <= i < |ids|
        ensures HeldBy(layers, li + 1, ids[i]) <==> HeldBy(layers, li, ids[i]) || ids[i] in claims
      {
        OneLayerMore(layers, li, ids[i]);
      }
      out := Mark(out, hit);
      pending, li := still, li + 1;
    }
    forall i | 0 <= i < |ids| ensures out[i] <==> HeldBy(layers, |layers|, ids[i]) {
      if out[i] {
        var l :| 0 <= l < li && ids[i] in layers[l].claims;
      } else {
        assert i in pending;
      }
    }
  }

  lemma OneLayerMore(layers: seq<Layer>, li: nat, id: Id)
    requires li < |layers|
    ensures HeldBy(layers, li + 1, id) <==> HeldBy(layers, li, id) || id in layers[li].claims
  {
  }

  method Mark(out: seq<bool>, hit: seq<nat>) returns (out': seq<bool>)
    requires forall p: nat :: p in hit ==> p < |out|
    ensures |out'| == |out| && forall i :: 0 <= i < |out| ==> (out'[i] <==> out[i] || i in hit)
  {
    out' := out;
    for k := 0 to |hit|
      invariant |out'| == |out| && forall i :: 0 <= i < |out| ==> (out'[i] <==> out[i] || i in hit[..k])
    {
      assert hit[..k + 1] == hit[..k] + [hit[k]] && hit[k] in hit;
      out' := out'[hit[k] := true];
    }
    assert hit[..|hit|] == hit;
  }

  // ---- Contents ----

  /** Some layer that could hold the blob keeps these bytes under its hash. */
  ghost predicate Keeps(layers: seq<Layer>, r: Ref, bytes: seq<bv8>) {
    exists l :: 0 <= l < |layers| && KeepsAt(layers[l], r, bytes)
  }

  ghost predicate KeepsAt(l: Layer, r: Ref, bytes: seq<bv8>) {
    CouldHold(l, r.size) && r.hash in l.blobs && l.blobs[r.hash] == Intact(bytes)
  }

  /** A layer answers a batch whole: one damaged blob in it withholds them all. */
  method FetchBlobs(l: Layer, refs: seq<Ref>, hit: seq<nat>, out: seq<seq<bv8>>)
    returns (whole: bool, out': seq<seq<bv8>>)
    requires |out| == |refs| && forall p: nat :: p in hit ==>
      p < |refs| && CouldHold(l, refs[p].size) && refs[p].hash in l.blobs
    ensures |out'| == |out| && forall i :: 0 <= i < |out| && i !in hit ==> out'[i] == out[i]
    ensures whole ==> forall p: nat :: p in hit ==> KeepsAt(l, refs[p], out'[p])
    ensures whole <==> forall p: nat :: p in hit ==> l.blobs[refs[p].hash].Intact?
    ensures !whole ==> out' == out
  {
    whole, out' := true, out;
    for k := 0 to |hit|
      invariant |out'| == |out| && forall i :: 0 <= i < |out| && i !in hit[..k] ==> out'[i] == out[i]
      invariant forall p: nat :: p in hit[..k] ==> p in hit && KeepsAt(l, refs[p], out'[p])
    {
      assert hit[..k + 1] == hit[..k] + [hit[k]] && hit[k] in hit;
      var blob := l.blobs[refs[hit[k]].hash];
      if blob.Damaged? {
        return false, out;
      }
      out' := out'[hit[k] := blob.bytes];
    }
    assert hit[..|hit|] == hit;
  }

  /** GetContents: a layer is asked only for what its cap could hold, and a damaged or capped
      copy sends its whole batch on to the layers below. */
  method GetContents(layers: seq<Layer>, refs: seq<Ref>) returns (ok: bool, out: seq<seq<bv8>>, broke: bool)
    ensures ok ==> |out| == |refs| && forall i :: 0 <= i < |refs| ==> Keeps(layers, refs[i], out[i])
    ensures !broke && |layers| > 0 && Complete(layers[|layers| - 1], refs) ==> ok
  {
    out := seq(|refs|, _ => []);
    var pending: seq<nat> := AllPositions(|refs|);
    broke := false;
    var li := 0;
    while li < |layers| && pending != []
      invariant 0 <= li <= |layers| && |out| == |refs| && !broke
      invariant forall p: nat :: p in pending ==> p < |refs|
      invariant forall i :: 0 <= i < |refs| && i !in pending ==> Keeps(layers, refs[i], out[i])
      invariant li == |layers| > 0 && Complete(layers[|layers| - 1], refs) ==> pending == []
      decreases |layers| - li
    {
      var fails: bool := *;
      if fails {
        broke, ok := true, false;
        return;
      }
      out, pending := Descend(layers, li, refs, pending, out);
      li := li + 1;
    }
    ok := pending == [];
  }

  ghost predicate Complete(l: Layer, refs: seq<Ref>) {
    forall i :: 0 <= i < |refs| ==>
      CouldHold(l, refs[i].size) && refs[i].hash in l.blobs && l.blobs[refs[i].hash].Intact?
  }

  /** One layer's part in the descent. */
  method Descend(layers: seq<Layer>, li: nat, refs: seq<Ref>, pending: seq<nat>, out: seq<seq<bv8>>)
    returns (out': seq<seq<bv8>>, pending': seq<nat>)
    requires li < |layers| && |out| == |refs| && forall p: nat :: p in pending ==> p < |refs|
    requires forall i :: 0 <= i < |refs| && i !in pending ==> Keeps(layers, refs[i], out[i])
    ensures |out'| == |refs| && forall p: nat :: p in pending' ==> p in pending
    ensures forall i :: 0 <= i < |refs| && i !in pending' ==> Keeps(layers, refs[i], out'[i])
    ensures Complete(layers[li], refs) ==> pending' == []
  {
    var l := layers[li];
    var ask: seq<nat>, deferred: seq<nat> := Split(pending, (p: nat) => p < |refs| && CouldHold(l, refs[p].size));
    var hit: seq<nat>, missed: seq<nat> := Split(ask, (p: nat) => p < |refs| && refs[p].hash in l.blobs);
    var whole;
    whole, out' := FetchBlobs(l, refs, hit, out);
    pending' := deferred + missed + if whole then [] else hit;
    forall i | 0 <= i < |refs| && i !in pending' ensures Keeps(layers, refs[i], out'[i]) {
      if i in pending {
        assert i in hit;
        assert KeepsAt(layers[li], refs[i], out'[i]);
      }
    }
    if Complete(layers[li], refs) {
      NonePending(pending');
    }
  }

  lemma NonePending(q: seq<nat>)
    ensures q == [] || exists p :: p in q
  {
    if q != [] {
      assert q[0] in q;
    }
  }

  /** A hash names the same bytes wherever they are intact. */
  ghost predicate SameBlobs(l: Layer, m: Layer) {
    forall h :: h in l.blobs && h in m.blobs && l.blobs[h].Intact? && m.blobs[h].Intact? ==> l.blobs[h] == m.blobs[h]
  }

  /** Where the layers agree on their keys, the answer is that of any one intact copy. */
  lemma OneAnswer(layers: seq<Layer>, r: Ref, bytes: seq<bv8>, bytes': seq<bv8>)
    requires forall l, m :: 0 <= l < |layers| && 0 <= m < |layers| ==> SameBlobs(layers[l], layers[m])
    requires Keeps(layers, r, bytes) && Keeps(layers, r, bytes')
    ensures bytes == bytes'
  {
    var l :| 0 <= l < |layers| && KeepsAt(layers[l], r, bytes);
    var m :| 0 <= m < |layers| && KeepsAt(layers[m], r, bytes');
    assert SameBlobs(layers[l], layers[m]);
  }

  // ---- Claims ----

  predicate Serves(l: Layer, wantDelta: bool, id: Id) {
    id in l.claims && (!wantDelta || l.keepsDeltas)
  }

  ghost predicate ServedBy(layers: seq<Layer>, upto: nat, wantDelta: bool, id: Id) {
    exists l :: 0 <= l < upto && l < |layers| && Serves(layers[l], wantDelta, id)
  }

  method Place(out: seq<Option<Fetched>>, ids: seq<Id>, hit: seq<nat>, form: Form) returns (out': seq<Option<Fetched>>)
    requires |out| == |ids| && forall p: nat :: p in hit ==> p < |ids|
    ensures |out'| == |out|
    ensures forall i :: 0 <= i < |out| ==> out'[i] == if i in hit then Some(Fetched(ids[i], form)) else out[i]
  {
    out' := out;
    for k := 0 to |hit|
      invariant |out'| == |out|
      invariant forall i :: 0 <= i < |out| ==> out'[i] == if i in hit[..k] then Some(Fetched(ids[i], form)) else out[i]
    {
      assert hit[..k + 1] == hit[..k] + [hit[k]] && hit[k] in hit;
      out' := out'[hit[k] := Some(Fetched(ids[hit[k]], form))];
    }
    assert hit[..|hit|] == hit;
  }

  /** GetClaims: a layer that keeps deltas is asked for them, and what it gave is materialised
      afterwards unless deltas were asked for. Each position gets its own claim in the form
      asked for, and the read finds every claim some layer can serve. */
  method GetClaims(layers: seq<Layer>, ids: seq<Id>, wantDelta: bool)
    returns (ok: bool, out: seq<Option<Fetched>>, broke: bool)
    ensures ok ==> |out| == |ids| && forall i :: 0 <= i < |ids| ==>
      out[i] == Some(Fetched(ids[i], if wantDelta then Delta else Materialized))
    ensures !broke ==> (ok <==> forall i :: 0 <= i < |ids| ==> ServedBy(layers, |layers|, wantDelta, ids[i]))
  {
    out, broke := seq(|ids|, _ => None), false;
    var pending: seq<nat> := AllPositions(|ids|);
    var resolve: seq<nat> := [];
    var li := 0;
    while li < |layers| && pending != []
      invariant 0 <= li <= |layers| && |out| == |ids| && !broke
      invariant forall p: nat :: p in pending <==> p < |ids| && !ServedBy(layers, li, wantDelta, ids[p])
      invariant forall p: nat :: p in resolve ==> p < |ids| && !wantDelta && p !in pending
      invariant forall i :: 0 <= i < |ids| && i !in pending ==>
        out[i] == Some(Fetched(ids[i], if wantDelta || i in resolve then Delta else Materialized))
      decreases |layers| - li
    {
      var fails: bool := *;
      if fails {
        broke, ok := true, false;
        return;
      }
      var l := layers[li];
      forall i | 0 <= i < |ids|
        ensures ServedBy(layers, li + 1, wantDelta, ids[i]) <==>
          ServedBy(layers, li, wantDelta, ids[i]) || Serves(l, wantDelta, ids[i])
      {
        OneServerMore(layers, li, wantDelta, ids[i]);
      }
      if wantDelta && !l.keepsDeltas {
        li := li + 1;
        continue;
      }
      var hit: seq<nat>, still: seq<nat> := Split(pending, (p: nat) => p < |ids| && ids[p] in l.claims);
      out := Place(out, ids, hit, if l.keepsDeltas then Delta else Materialized);
      if l.keepsDeltas && !wantDelta {
        resolve := resolve + hit;
      }
      pending, li := still, li + 1;
    }
    ok := pending == [];
    if !ok {
      assert pending[0] in pending;
      return;
    }
    out, broke := Materialize(out, ids, resolve, wantDelta);
    ok := !broke;
  }

  lemma OneServerMore(layers: seq<Layer>, li: nat, wantDelta: bool, id: Id)
    requires li < |layers|
    ensures ServedBy(layers, li + 1, wantDelta, id) <==>
      ServedBy(layers, li, wantDelta, id) || Serves(layers[li], wantDelta, id)
  {
  }

  method Materialize(out: seq<Option<Fetched>>, ids: seq<Id>, resolve: seq<nat>, wantDelta: bool)
    returns (out': seq<Option<Fetched>>, broke: bool)
    requires |out| == |ids| && forall p: nat :: p in resolve ==> p < |ids| && !wantDelta
    requires forall i :: 0 <= i < |ids| ==>
      out[i] == Some(Fetched(ids[i], if wantDelta || i in resolve then Delta else Materialized))
    ensures |out'| == |ids|
    ensures !broke ==> forall i :: 0 <= i < |ids| ==>
      out'[i] == Some(Fetched(ids[i], if wantDelta then Delta else Materialized))
  {
    broke := *;
    out' := Place(out, ids, resolve, Materialized);
  }
}
