/** One bookmark list over its slot store (bookmarks.go): how its ends are searched for, what a
    writer remembers of them, and what appending does. */
module Bookmarks {
  import opened Graphs
  import opened Claims
  import opened Options

  const GAP_PROBE := 4

  // What a slot holds: an entry of this list, a record keying another slot, or damage.
  datatype Record = Entry(head: Id) | Foreign | Damaged

  type Slots = map<int, Record>

  predicate Present(s: Slots, i: int) {
    i >= 0 && i in s && s[i].Entry?
  }

  /** The list occupies exactly the indexes lo..hi. It is empty when hi < lo. */
  ghost predicate Spans(s: Slots, lo: int, hi: int) {
    0 <= lo && forall i :: Present(s, i) <==> lo <= i <= hi
  }

  function HeadAt(s: Slots, i: int): Option<Id> {
    if Present(s, i) then Some(s[i].head) else None
  }

  /** As Spans, leaving aside the slot above hi, which a failed write may have reached. */
  ghost predicate Tight(s: Slots, lo: int, hi: int) {
    0 <= lo && forall i :: i != hi + 1 ==> (Present(s, i) <==> lo <= i <= hi)
  }

  /** Two stores that agree everywhere but at one slot. */
  ghost predicate SameBut(s: Slots, s': Slots, i: int) {
    forall k :: k != i ==> (k in s <==> k in s') && (k in s ==> s'[k] == s[k])
  }

  lemma Appended(s: Slots, lo: int, hi: int, head: Id)
    requires Tight(s, lo, hi) && lo <= hi + 1
    ensures Spans(s[hi + 1 := Entry(head)], lo, hi + 1)
  {
    var s' := s[hi + 1 := Entry(head)];
    forall i ensures Present(s', i) <==> lo <= i <= hi + 1 {
      assert i != hi + 1 ==> (Present(s', i) <==> Present(s, i));
    }
  }

  // What a gallop may still hit.
  function Above(s: Slots, i: int): set<int> {
    set k | k in s && k > i
  }

  lemma AboveShrinks(s: Slots, i: int, j: int)
    requires i < j && j in s
    ensures Above(s, j) < Above(s, i)
  {
    assert j in Above(s, i) && j !in Above(s, j);
  }

  // ---- Probe counts ----

  function Pow2(k: nat): nat {
    if k == 0 then 1 else 2 * Pow2(k - 1)
  }

  /** The number of binary digits of n. */
  function BitLength(n: nat): (k: nat)
    ensures n < Pow2(k)
    ensures n > 0 ==> k > 0 && Pow2(k - 1) <= n
    ensures n == 0 ==> k == 0
  {
    if n == 0 then 0 else 1 + BitLength(n / 2)
  }

  lemma {:induction false} Pow2Rises(j: nat, k: nat)
    requires j < k
    ensures Pow2(j) < Pow2(k)
  {
    if j + 1 < k {
      Pow2Rises(j, k - 1);
    }
    Pow2Positive(k - 1);
  }

  lemma {:induction false} Pow2Positive(k: nat)
    ensures Pow2(k) >= 1
  {
    if k > 0 {
      Pow2Positive(k - 1);
    }
  }

  lemma BitLengthUnique(n: nat, k: nat)
    requires n < Pow2(k) && (k == 0 || Pow2(k - 1) <= n)
    ensures BitLength(n) == k
  {
    var b := BitLength(n);
    if b < k {
      if b < k - 1 { Pow2Rises(b, k - 1); }
    } else if k < b {
      if k < b - 1 { Pow2Rises(k, b - 1); }
    }
    Pow2Positive(0);
  }

  /** What an ascending search costs when the top is n indexes above its start. */
  function AscendProbes(n: nat): nat {
    if n == 0 then 1 else 2 * BitLength(n)
  }

  datatype Fetch = Absent | Found(head: Id) | Broken

  datatype Range = Range(lo: int, hi: int) | Unsettled

  class History {
    var slots: Slots

    constructor ()
      ensures slots == map[]
    {
      slots := map[];
    }

    /** A store that errors may still have taken the record. */
    method Put(i: nat, head: Id) returns (ok: bool)
      modifies this
      ensures slots == old(slots)[i := Entry(head)] || (!ok && slots == old(slots))
    {
      ok := *;
      var lands: bool := *;
      if ok || lands {
        slots := slots[i := Entry(head)];
      }
    }
  }

  class List {
    const hist: History
    const entry: nat
    const anchored: bool
    var lo: int
    var hi: int
    var top: Option<Id>
    var wrote: bool
    var loaded: bool
    ghost var probes: nat

    /** The writer's cache names the entry it wrote last. */
    ghost predicate Cached()
      reads this, hist
    {
      0 <= lo <= hi && top.Some? && top == HeadAt(hist.slots, hi)
    }

    constructor (hist: History, entry: nat, anchored: bool)
      ensures this.hist == hist && this.entry == entry && this.anchored == anchored
      ensures !wrote && !loaded && probes == 0
    {
      this.hist, this.entry, this.anchored := hist, entry, anchored;
      lo, hi, top, wrote, loaded, probes := 0, -1, None, false, false, 0;
    }

    method FetchAt(i: int) returns (r: Fetch)
      ensures r.Absent? ==> !Present(hist.slots, i)
      ensures r.Found? ==> Present(hist.slots, i) && hist.slots[i].head == r.head
      ensures i >= 0 && i in hist.slots && hist.slots[i].Damaged? ==> r.Broken?
    {
      if i < 0 {
        return Absent;
      }
      var fails: bool := *;
      if fails {
        return Broken;
      }
      if i !in hist.slots {
        return Absent;
      }
      match hist.slots[i]
      case Entry(head) => r := Found(head);
      case Foreign => r := Absent;
      case Damaged => r := Broken;
    }

    method Probe(i: int) returns (r: Fetch)
      modifies `probes
      ensures probes == old(probes) + 1
      ensures r.Absent? ==> !Present(hist.slots, i)
      ensures r.Found? ==> Present(hist.slots, i)
    {
      probes := probes + 1;
      r := FetchAt(i);
    }

    /** The search upward, in two loops. Over any store the answer lies just below an absent
        index; over a gapless list it is the top, at an exact cost. */
    method Ascend(from: nat) returns (r: Option<nat>)
      modifies `probes
      ensures r.Some? ==> from <= r.value && (r.value == from || Present(hist.slots, r.value))
      ensures r.Some? ==> !Present(hist.slots, r.value + 1)
      ensures r.Some? ==> forall l, h :: Spans(hist.slots, l, h) && l <= from <= h ==>
        r.value == h && probes == old(probes) + AscendProbes(h - from)
    {
      var hit, miss, step := from, 0, 1;
      ghost var k := 0;
      while true
        invariant k >= 0 && step == Pow2(k) && step >= 1
        invariant hit == if k == 0 then from else from + Pow2(k - 1)
        invariant hit == from || Present(hist.slots, hit)
        invariant probes == old(probes) + k
        decreases Above(hist.slots, hit)
      {
        var probe := from + step;
        var p := Probe(probe);
        if p.Broken? {
          return None;
        }
        if p.Absent? {
          miss := probe;
          break;
        }
        Pow2Rises(k, k + 1);
        if k > 0 { Pow2Rises(k - 1, k); }
        AboveShrinks(hist.slots, hit, probe);
        hit, step := probe, step * 2;
        k := k + 1;
      }
      ghost var gallops := k;
      ghost var gallop := hit;
      if k > 0 { k := k - 1; }
      while hit + 1 < miss
        invariant k >= 0 && from <= gallop <= hit < miss && miss - hit == Pow2(k)
        invariant hit == from || Present(hist.slots, hit)
        invariant !Present(hist.slots, miss)
        invariant gallops == 0 ==> k == 0 && miss == from + 1
        invariant gallops > 0 ==> k < gallops && from + Pow2(gallops - 1) <= hit && miss <= from + Pow2(gallops)
        invariant probes == old(probes) + gallops + 1 + (if gallops == 0 then 0 else gallops - 1 - k)
        decreases miss - hit
      {
        Pow2Positive(k - 1);
        var mid := hit + (miss - hit) / 2;
        var p := Probe(mid);
        if p.Broken? {
          return None;
        }
        if p.Found? {
          hit := mid;
        } else {
          miss := mid;
        }
        k := k - 1;
      }
      if k > 0 { Pow2Rises(0, k); }
      r := Some(hit);
      forall l, h | Spans(hist.slots, l, h) && l <= from <= h
        ensures hit == h && probes == old(probes) + AscendProbes(h - from)
      {
        assert Present(hist.slots, from);
        assert Present(hist.slots, hit) && !Present(hist.slots, hit + 1);
        if gallops > 0 {
          BitLengthUnique(h - from, gallops);
        }
      }
    }

    /** Ascend run downward, clamped at index 0. */
    method Descend(from: nat) returns (r: Option<nat>)
      modifies `probes
      ensures r.Some? ==> r.value <= from && (r.value == from || Present(hist.slots, r.value))
      ensures r.Some? ==> !Present(hist.slots, r.value - 1)
      ensures r.Some? ==> forall l, h :: Spans(hist.slots, l, h) && l <= from <= h ==> r.value == l
      ensures probes <= old(probes) + 2 * BitLength(from) + 1
    {
      var hit, miss, step := from, -1, 1;
      ghost var k := 0;
      while hit > 0
        invariant 0 <= hit <= from && step == Pow2(k) && step >= 1 && 0 <= k <= BitLength(from) + 1
        invariant k == 0 ==> hit == from
        invariant k > 0 ==> hit == if from >= Pow2(k - 1) then from - Pow2(k - 1) else 0
        invariant hit == from || Present(hist.slots, hit)
        invariant miss == -1
        invariant probes == old(probes) + k
        invariant hit > 0 ==> k <= BitLength(from)
        decreases hit
      {
        var probe := if from - step > 0 then from - step else 0;
        var p := Probe(probe);
        if p.Broken? {
          return None;
        }
        if p.Absent? {
          miss := probe;
          break;
        }
        if k > 0 { Pow2Rises(k - 1, k); }
        hit := probe;
        step := step * 2;
        k := k + 1;
      }
      ghost var n := BitLength(from);
      ghost var spent := probes - old(probes);
      assert hit - miss <= Pow2(n) by {
        if k > 0 && miss >= 0 {
          assert hit - miss <= Pow2(k - 1);
          if k - 1 < n { Pow2Rises(k - 1, n); }
        } else if k == 0 && miss >= 0 {
          if n > 0 { Pow2Rises(0, n); }
        } else {
          Pow2Positive(n);
        }
      }
      while miss + 1 < hit
        invariant -1 <= miss < hit <= from
        invariant hit == from || Present(hist.slots, hit)
        invariant !Present(hist.slots, miss)
        invariant 0 <= n <= BitLength(from) && hit - miss <= Pow2(n)
        invariant probes == old(probes) + spent + BitLength(from) - n
        decreases hit - miss
      {
        var mid := miss + (hit - miss) / 2;
        var p := Probe(mid);
        if p.Broken? {
          return None;
        }
        if p.Found? {
          hit := mid;
        } else {
          miss := mid;
        }
        n := n - 1;
      }
      r := Some(hit);
      forall l, h | Spans(hist.slots, l, h) && l <= from <= h ensures hit == l {
        assert Present(hist.slots, from);
        assert Present(hist.slots, hit) && !Present(hist.slots, hit - 1);
      }
    }

    /** Four more looks above the top, in case the list has a hole there. */
    method ProbeGap(top: int) returns (clear: bool)
      modifies `probes
      ensures clear ==> forall i :: top + 2 <= i <= top + 1 + GAP_PROBE ==> !Present(hist.slots, i)
    {
      var i := top + 2;
      while i <= top + 1 + GAP_PROBE
        invariant forall j :: top + 2 <= j < i ==> !Present(hist.slots, j)
      {
        var p := Probe(i);
        if !p.Absent? {
          return false;
        }
        i := i + 1;
      }
      clear := true;
    }

    /** bounds: a writer answers from its cache, a reader searches again each time. */
    method Bounds() returns (r: Range)
      requires wrote ==> Cached()
      modifies `lo, `hi, `loaded, `probes
      ensures old(wrote) ==> r == Range(old(lo), old(hi)) && lo == old(lo) && hi == old(hi)
      ensures r.Range? ==> r == Range(lo, hi)
      ensures r.Unsettled? ==> lo == old(lo) && hi == old(hi)
      ensures r.Range? && !wrote && Present(hist.slots, entry) ==>
        forall l, h :: Spans(hist.slots, l, h) ==> r == Range(l, h)
      ensures r.Range? && !wrote && !Present(hist.slots, entry) ==> !anchored && r == Range(0, -1)
      ensures r.Range? && !wrote && Present(hist.slots, entry) ==>
        && 0 <= r.lo <= entry <= r.hi && Present(hist.slots, r.lo) && Present(hist.slots, r.hi)
        && !Present(hist.slots, r.lo - 1) && !Present(hist.slots, r.hi + 1)
    {
      if wrote {
        return Range(lo, hi);
      }
      var p := FetchAt(entry);
      if p.Broken? {
        return Unsettled;
      }
      if p.Absent? {
        if anchored {
          return Unsettled;
        }
        lo, hi := 0, -1;
        return Range(0, -1);
      }
      var l := Descend(entry);
      if l.None? {
        return Unsettled;
      }
      var h := Ascend(entry);
      if h.None? {
        return Unsettled;
      }
      if !loaded {
        var clear := ProbeGap(h.value);
        if !clear {
          return Unsettled;
        }
        loaded := true;
      }
      lo, hi := l.value, h.value;
      r := Range(lo, hi);
    }

    /** Append. The record goes right above the top. A failed write does not move the cache, so
        a writer that has written before overwrites whatever the failure left behind. */
    method Append(head: Id) returns (ok: bool)
      requires wrote ==> Cached()
      modifies this, hist
      ensures ok ==> wrote && top == Some(head) && Cached()
      ensures ok ==> hist.slots == old(hist.slots)[hi := Entry(head)]
      ensures ok && old(wrote) ==> lo == old(lo) && hi == old(hi) + 1
      ensures ok && old(wrote) && old(Tight(hist.slots, lo, hi)) ==> Spans(hist.slots, lo, hi)
      ensures ok && !old(wrote) ==> forall l, h ::
        old(Spans(hist.slots, l, h)) && (l <= entry <= h || (l == 0 && h == -1)) ==>
          lo == l && hi == h + 1 && Spans(hist.slots, lo, hi)
      ensures !ok ==> wrote == old(wrote) && top == old(top)
      ensures !ok && old(wrote) ==> lo == old(lo) && hi == old(hi) && Cached()
      ensures !ok && old(wrote) ==>
        hist.slots == old(hist.slots) || hist.slots == old(hist.slots)[hi + 1 := Entry(head)]
      ensures !ok && !old(wrote) ==> forall l, h ::
        old(Spans(hist.slots, l, h)) && (l <= entry <= h || (l == 0 && h == -1)) ==>
          hist.slots == old(hist.slots) || hist.slots == old(hist.slots)[h + 1 := Entry(head)]
    {
      var r := Bounds();
      if r.Unsettled? {
        return false;
      }
      var index := r.hi + 1;
      ghost var was := hist.slots;
      ok := hist.Put(index, head);
      if !ok {
        return;
      }
      lo, hi := if lo < index then lo else index, index;
      top, wrote, loaded := Some(head), true, true;
      forall l, h | Tight(was, l, h) && l <= h + 1 && h + 1 == index ensures Spans(hist.slots, l, index) {
        Appended(was, l, h, head);
      }
      forall l, h | Spans(was, l, h) ensures Tight(was, l, h) {}
    }

    /** Latest. Only a reader has to search: what a writer wrote last is in its cache. */
    method Latest() returns (r: Option<Option<Id>>)
      requires wrote ==> Cached()
      modifies `lo, `hi, `loaded, `probes
      ensures wrote ==> Cached()
      ensures r.Some? && wrote ==> r.value == HeadAt(hist.slots, hi)
      ensures r.Some? && !wrote ==> forall l, h ::
        Spans(hist.slots, l, h) && (l <= entry <= h || (l == 0 && h == -1)) ==>
          r.value == HeadAt(hist.slots, h)
    {
      if wrote {
        return Some(top);
      }
      var b := Bounds();
      if b.Unsettled? {
        return None;
      }
      if b.hi < 0 {
        return Some(None);
      }
      var f := FetchAt(b.hi);
      if !f.Found? {
        return None;
      }
      r := Some(Some(f.head));
      forall l, h | Spans(hist.slots, l, h) && l <= entry <= h ensures b.hi == h {
        assert Present(hist.slots, entry);
      }
    }

    /** Verify's contiguity half: every index of the settled range is present. */
    method VerifyGapless() returns (ok: bool)
      requires wrote ==> Cached()
      modifies `lo, `hi, `loaded, `probes
      ensures ok ==> forall i :: lo <= i <= hi ==> Present(hist.slots, i)
    {
      var r := Bounds();
      if r.Unsettled? {
        return false;
      }
      var i := r.lo;
      while i <= r.hi
        invariant r == Range(lo, hi)
        invariant forall j :: r.lo <= j < i ==> Present(hist.slots, j)
      {
        var f := FetchAt(i);
        if !f.Found? {
          return false;
        }
        i := i + 1;
      }
      ok := true;
    }
  }
}
