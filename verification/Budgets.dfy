/** Output.Content (query_content.go, codec.go): one budget per claim, spent along its edges'
    content and then its node's, so what a bounded answer carries is a prefix. */
module Budgets {
  import opened Options

  type Bytes = seq<bv8>

  datatype Overflow = Omit | Cutoff

  // How much content a read asks for: max 0 means all of it.
  datatype OutputContent = OutputContent(max: nat, overflow: Overflow)

  datatype Purse = Purse(left: nat, cutoff: bool, stopped: bool)

  function Flat(values: seq<Bytes>): Bytes {
    if values == [] then [] else Flat(values[..|values| - 1]) + values[|values| - 1]
  }

  function Sizes(values: seq<Bytes>): nat {
    |Flat(values)|
  }

  /** How many of the values fit whole: those before the first that overruns the cap. */
  function Fitting(values: seq<Bytes>, cap: nat): (k: nat)
    ensures k <= |values|
  {
    if values == [] then 0
    else
      var n := |values| - 1;
      var k := Fitting(values[..n], cap);
      if k == n && Sizes(values) <= cap then n + 1 else k
  }

  class ContentBudget {
    var purse: Purse

    constructor (left: nat, cutoff: bool)
      ensures purse == Purse(left, cutoff, false)
    {
      purse := Purse(left, cutoff, false);
    }

    /** take. Whatever the budget was spent on so far, with this value more what was kept is
        again what the cap affords of the whole sequence: a prefix of it. */
    method Take(content: Bytes) returns (kept: Bytes)
      modifies this
      ensures forall values, keeps, cap, cutoff :: Spent(values, keeps, cap, cutoff, old(purse)) ==>
        Spent(values + [content], keeps + [kept], cap, cutoff, purse)
    {
      kept := Pay(content);
      forall values, keeps, cap, cutoff | Spent(values, keeps, cap, cutoff, old(purse))
        ensures Spent(values + [content], keeps + [kept], cap, cutoff, purse)
      {
        SpentMore(values, keeps, cap, cutoff, old(purse), purse, content, kept);
      }
    }

    /** Its branches. Empty content passes through. */
    method Pay(content: Bytes) returns (kept: Bytes)
      modifies this
      ensures Taken(old(purse), purse, content, kept)
    {
      if content == [] {
        return content;
      }
      if purse.stopped {
        return [];
      }
      if |content| <= purse.left {
        purse := purse.(left := purse.left - |content|);
        return content;
      }
      purse := purse.(stopped := true);
      if purse.cutoff && purse.left > 0 {
        kept := content[..purse.left];
        purse := purse.(left := 0);
        return;
      }
      kept := [];
    }
  }

  ghost predicate Taken(was: Purse, now: Purse, v: Bytes, kept: Bytes) {
    if v == [] || was.stopped then kept == [] && now == was
    else if |v| <= was.left then kept == v && now == was.(left := was.left - |v|)
    else
      && now == Purse(if was.cutoff then 0 else was.left, was.cutoff, true)
      && kept == if was.cutoff then v[..was.left] else []
  }

  /** What slot i keeps: its whole value while all fit, the bytes up to the cap where a cutoff
      ends the prefix, and nothing after. */
  function Slot(values: seq<Bytes>, i: nat, cap: nat, cutoff: bool): Bytes
    requires i < |values|
  {
    if i < Fitting(values, cap) then values[i]
    else if cutoff && Sizes(values[..i]) < cap then Cut(values[i], cap - Sizes(values[..i]))
    else []
  }

  ghost predicate Slots(values: seq<Bytes>, kept: seq<Bytes>, cap: nat, cutoff: bool) {
    |kept| == |values| && forall i :: 0 <= i < |kept| ==> kept[i] == Slot(values, i, cap, cutoff)
  }

  lemma SlotStays(values: seq<Bytes>, v: Bytes, i: nat, cap: nat, cutoff: bool)
    requires i < |values|
    ensures Slot(values + [v], i, cap, cutoff) == Slot(values, i, cap, cutoff)
  {
    FittingAdds(values, v, cap);
    assert (values + [v])[..i] == values[..i];
  }

  lemma SlotNew(values: seq<Bytes>, v: Bytes, cap: nat, cutoff: bool)
    ensures Slot(values + [v], |values|, cap, cutoff) ==
      if Fitting(values, cap) == |values| && Sizes(values + [v]) <= cap then v
      else if cutoff && Sizes(values) < cap then Cut(v, cap - Sizes(values))
      else []
  {
    FittingAdds(values, v, cap);
    assert (values + [v])[..|values|] == values;
  }

  /** What has been kept of the values so far under a cap. */
  ghost predicate Spent(values: seq<Bytes>, kept: seq<Bytes>, cap: nat, cutoff: bool, purse: Purse) {
    && purse.cutoff == cutoff && Slots(values, kept, cap, cutoff)
    && Flat(kept) == (if cutoff then Cut(Flat(values), cap) else Flat(values[..Fitting(values, cap)]))
    && (!purse.stopped ==>
      Fitting(values, cap) == |values| && purse.left == cap - Sizes(values) && Sizes(values) <= cap)
    && (purse.stopped ==> Fitting(values, cap) < |values| && Sizes(values) > cap)
  }

  function Cut(bytes: Bytes, cap: nat): Bytes {
    if |bytes| <= cap then bytes else bytes[..cap]
  }

  lemma FlatAdds(values: seq<Bytes>, v: Bytes)
    ensures Flat(values + [v]) == Flat(values) + v
  {
    assert (values + [v])[..|values|] == values;
  }

  lemma FittingAdds(values: seq<Bytes>, v: Bytes, cap: nat)
    ensures Fitting(values + [v], cap) ==
      if Fitting(values, cap) == |values| && Sizes(values + [v]) <= cap then |values| + 1 else Fitting(values, cap)
  {
    assert (values + [v])[..|values|] == values;
  }

  lemma SlotsMore(values: seq<Bytes>, kept: seq<Bytes>, cap: nat, cutoff: bool, was: Purse, now: Purse, v: Bytes,
      k: Bytes)
    requires Spent(values, kept, cap, cutoff, was) && Taken(was, now, v, k)
    ensures Slots(values + [v], kept + [k], cap, cutoff)
  {
    FlatAdds(values, v);
    SlotNew(values, v, cap, cutoff);
    forall i | 0 <= i < |values| ensures (kept + [k])[i] == Slot(values + [v], i, cap, cutoff) {
      SlotStays(values, v, i, cap, cutoff);
    }
  }

  /** One more value keeps the account, whichever way it is spent. */
  lemma SpentMore(values: seq<Bytes>, kept: seq<Bytes>, cap: nat, cutoff: bool, was: Purse, now: Purse, v: Bytes,
      k: Bytes)
    requires Spent(values, kept, cap, cutoff, was) && Taken(was, now, v, k)
    ensures Spent(values + [v], kept + [k], cap, cutoff, now)
  {
    SlotsMore(values, kept, cap, cutoff, was, now, v, k);
    FlatAdds(values, v);
    FlatAdds(kept, k);
    FittingAdds(values, v, cap);
    FitFlat(values, v, Fitting(values + [v], cap));
    assert values[..|values|] == values;
    if cutoff && !was.stopped && |v| > was.left {
      CutInto(Flat(values), v, cap);
    }
  }

  lemma CutInto(flat: Bytes, v: Bytes, cap: nat)
    requires |flat| <= cap < |flat| + |v|
    ensures Cut(flat + v, cap) == flat + v[..cap - |flat|]
  {
  }

  lemma FitFlat(values: seq<Bytes>, v: Bytes, fit: nat)
    requires fit <= |values| + 1
    ensures Flat((values + [v])[..fit]) == if fit == |values| + 1 then Flat(values) + v else Flat(values[..fit])
  {
    FlatAdds(values, v);
    if fit == |values| + 1 {
      assert (values + [v])[..fit] == values + [v];
    } else {
      assert (values + [v])[..fit] == values[..fit];
    }
  }

  /** The account of an encode under way. Without a budget everything is kept. */
  ghost predicate Account(b: ContentBudget?, slots: seq<Option<Bytes>>, kept: seq<Bytes>, cap: nat, cutoff: bool)
    reads b
  {
    if b == null then kept == Contents(slots) else Spent(Contents(slots), kept, cap, cutoff, b.purse)
  }

  /** Carry one slot's content, when `ask` says the encoder takes it from the budget. */
  method Carry(b: ContentBudget?, slots: seq<Option<Bytes>>, i: nat, ask: bool, kept: seq<Bytes>, ghost cap: nat,
      ghost cutoff: bool)
    returns (kept': seq<Bytes>)
    requires i < |slots| && Account(b, slots[..i], kept, cap, cutoff)
    requires if ask then slots[i].Some? else Content(slots[i]) == []
    modifies b
    ensures Account(b, slots[..i + 1], kept', cap, cutoff) && |kept'| == |kept| + 1
  {
    ContentsAdd(slots, i);
    var k := [];
    if ask {
      if b == null {
        k := slots[i].value;
      } else {
        k := b.Take(slots[i].value);
      }
    } else if b != null {
      SpentMore(Contents(slots[..i]), kept, cap, cutoff, b.purse, b.purse, [], []);
    }
    kept' := kept + [k];
  }

  /** The CBOR record spends the budget edge by edge, then on the node. */
  method EncodeCbor(edges: seq<Option<Bytes>>, node: Option<Bytes>, oc: Option<OutputContent>)
    returns (kept: seq<Bytes>)
    ensures |kept| == |edges| + 1 && Affords(oc, Contents(edges + [node]), kept)
  {
    var b := Open(oc);
    ghost var cap, cutoff := CapOf(oc), CutsOff(oc);
    kept := [];
    var slots := edges + [node];
    for i := 0 to |slots|
      invariant |kept| == i && (b == null || fresh(b)) && Account(b, slots[..i], kept, cap, cutoff)
    {
      kept := Carry(b, slots, i, slots[i].Some?, kept, cap, cutoff);
    }
    assert slots[..|slots|] == slots;
  }

  /** The JSON form spends it in the same order, asking only where there are bytes. */
  method EncodeJson(edges: seq<Option<Bytes>>, node: Option<Bytes>, oc: Option<OutputContent>)
    returns (kept: seq<Bytes>)
    ensures |kept| == |edges| + 1 && Affords(oc, Contents(edges + [node]), kept)
  {
    var b := Open(oc);
    ghost var cap, cutoff := CapOf(oc), CutsOff(oc);
    kept := [];
    var slots := edges + [node];
    for i := 0 to |slots|
      invariant |kept| == i && (b == null || fresh(b)) && Account(b, slots[..i], kept, cap, cutoff)
    {
      kept := Carry(b, slots, i, slots[i].Some? && |slots[i].value| > 0, kept, cap, cutoff);
    }
    assert slots[..|slots|] == slots;
  }

  ghost function CapOf(oc: Option<OutputContent>): nat {
    if oc.Some? then oc.value.max else 0
  }

  ghost predicate CutsOff(oc: Option<OutputContent>) {
    oc.Some? && oc.value.overflow.Cutoff?
  }

  /** newContentBudget: none asked for inlines nothing, max 0 inlines everything. */
  method Open(oc: Option<OutputContent>) returns (b: ContentBudget?)
    ensures b == null <==> oc.Some? && oc.value.max == 0
    ensures b != null ==> fresh(b) && b.purse == Purse(CapOf(oc), CutsOff(oc), false)
  {
    if oc.None? {
      b := new ContentBudget(0, false);
    } else if oc.value.max == 0 {
      b := null;
    } else {
      b := new ContentBudget(oc.value.max, oc.value.overflow.Cutoff?);
    }
  }

  function Content(slot: Option<Bytes>): Bytes {
    if slot.Some? then slot.value else []
  }

  function Contents(slots: seq<Option<Bytes>>): seq<Bytes> {
    seq(|slots|, i requires 0 <= i < |slots| => Content(slots[i]))
  }

  lemma ContentsAdd(slots: seq<Option<Bytes>>, i: nat)
    requires i < |slots|
    ensures Contents(slots[..i + 1]) == Contents(slots[..i]) + [Content(slots[i])]
  {
  }

  /** What a read's content option affords of a claim's content sequence: all of it, the bytes
      up to the cap, or the whole values before the first that overruns it. */
  ghost predicate Affords(oc: Option<OutputContent>, values: seq<Bytes>, kept: seq<Bytes>) {
    match oc
    case None => Slots(values, kept, 0, false) && Flat(kept) == Flat(values[..Fitting(values, 0)])
    case Some(OutputContent(max, overflow)) =>
      if max == 0 then kept == values
      else
        && Slots(values, kept, max, overflow.Cutoff?)
        && Flat(kept) == if overflow.Cutoff? then Cut(Flat(values), max) else Flat(values[..Fitting(values, max)])
  }

  /** However it is capped, the kept bytes begin the content and stay within the cap. A cutoff
      keeps exactly as many as the cap allows. */
  lemma KeptIsPrefix(oc: Option<OutputContent>, values: seq<Bytes>, kept: seq<Bytes>)
    requires Affords(oc, values, kept)
    ensures Flat(kept) <= Flat(values)
    ensures oc.Some? && oc.value.max > 0 ==> |Flat(kept)| <= oc.value.max
    ensures oc.Some? && oc.value.max > 0 && oc.value.overflow.Cutoff? ==>
      |Flat(kept)| == if Sizes(values) <= oc.value.max then Sizes(values) else oc.value.max
    ensures oc.None? ==> Flat(kept) == []
  {
    var cap := if oc.Some? then oc.value.max else 0;
    FittingFits(values, cap);
    FlatPrefix(values, Fitting(values, cap));
  }

  /** The two encodings of one claim carry the same content, slot by slot. */
  lemma EncodersAgree(oc: Option<OutputContent>, values: seq<Bytes>, cbor: seq<Bytes>, json: seq<Bytes>)
    requires Affords(oc, values, cbor) && Affords(oc, values, json)
    ensures cbor == json
  {
    if oc.None? || oc.value.max > 0 {
      assert forall i :: 0 <= i < |cbor| ==> cbor[i] == Slot(values, i, CapOf(oc), CutsOff(oc));
    }
  }

  lemma {:induction false} FlatPrefix(values: seq<Bytes>, k: nat)
    requires k <= |values|
    ensures Flat(values[..k]) <= Flat(values)
  {
    if k < |values| {
      FlatPrefix(values[..|values| - 1], k);
      assert values[..|values| - 1][..k] == values[..k];
    } else {
      assert values[..k] == values;
    }
  }

  /** The values that fit stay within the cap, and the next one, if any, overruns it. */
  lemma {:induction false} FittingFits(values: seq<Bytes>, cap: nat)
    ensures Sizes(values[..Fitting(values, cap)]) <= cap
    ensures Fitting(values, cap) < |values| ==> Sizes(values[..Fitting(values, cap) + 1]) > cap
  {
    if values != [] {
      var n := |values| - 1;
      FittingFits(values[..n], cap);
      var k := Fitting(values[..n], cap);
      assert values[..n][..k] == values[..k];
      assert values[..n + 1] == values;
      if k < n {
        assert values[..n][..k + 1] == values[..k + 1];
      }
    }
  }
}
