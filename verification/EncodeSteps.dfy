/** The encoder's loops, one step at a time, on values. */
module EncodeSteps {
  import opened Wire
  import opened RowTypes
  import opened CodecSpec
  import opened CodecLaws
  import opened Columns
  import opened Writer
  import Arrays
  import Builders

  /** Null flags once the first `j` slots have been looked at. */
  ghost function FlagsUpTo(vs: seq<Value>, j: nat): (r: seq<bool>)
    ensures |r| == |vs|
  {
    seq(|vs|, k requires 0 <= k < |vs| => k < j && vs[k] == Null)
  }

  lemma FlagsStep(vs: seq<Value>, j: nat)
    requires j < |vs|
    ensures !FlagsUpTo(vs, j)[j]
    ensures FlagsUpTo(vs, j + 1) == if vs[j] == Null then FlagsUpTo(vs, j)[j := true] else FlagsUpTo(vs, j)
  {
  }

  lemma FlagsEnds(vs: seq<Value>)
    ensures FlagsUpTo(vs, 0) == seq(|vs|, _ => false) && FlagsUpTo(vs, |vs|) == NullFlags(vs)
  {
  }

  lemma LayoutAppend(pre: bytes, flags: seq<bool>, payload: bytes, more: bytes)
    ensures Layout(pre, flags, payload) + more == Layout(pre, flags, payload + more)
  {
    hide Pack;
  }

  lemma LayoutKeeps(pre: bytes, flags: seq<bool>, payload: bytes)
    ensures pre <= Layout(pre, flags, payload)
  {
    hide Pack;
  }

  lemma {:induction false} ElemsSnoc(t: Type, vs: seq<Value>, v: Value)
    requires SlotsHaveType(t, vs) && SlotHasType(t, v)
    ensures SlotsHaveType(t, vs + [v]) && EncodeElems(t, vs + [v]) == EncodeElems(t, vs) + EncodeSlot(t, v)
    decreases |vs|
  {
    hide EncodeSlot, SlotHasType;
    assert forall i | 0 <= i < |vs + [v]| :: SlotHasType(t, (vs + [v])[i]);
    if vs == [] {
      assert [v][1..] == [] && vs + [v] == [v];
      assert EncodeElems(t, [v]) == EncodeSlot(t, v) + EncodeElems(t, []);
    } else {
      assert (vs + [v])[0] == vs[0] && (vs + [v])[1..] == vs[1..] + [v];
      ElemsSnoc(t, vs[1..], v);
      Assoc(EncodeSlot(t, vs[0]), EncodeElems(t, vs[1..]), EncodeSlot(t, v));
    }
  }

  /** One more slot of a list. */
  lemma {:induction false} ElemsNext(t: Type, vs: seq<Value>, j: nat)
    requires j < |vs| && SlotsHaveType(t, vs[..j])
    ensures SlotsHaveType(t, vs[..j + 1]) <==> SlotHasType(t, vs[j])
    ensures SlotHasType(t, vs[j]) ==> EncodeElems(t, vs[..j + 1]) == EncodeElems(t, vs[..j]) + EncodeSlot(t, vs[j])
  {
    hide EncodeSlot, EncodeElems, SlotHasType;
    assert vs[..j + 1] == vs[..j] + [vs[j]];
    assert vs[..j + 1][j] == vs[j];
    if SlotHasType(t, vs[j]) { ElemsSnoc(t, vs[..j], vs[j]); }
  }

  /** A slot of the wrong type spoils the list. */
  lemma {:induction false} ElemsSpoilt(t: Type, vs: seq<Value>, j: nat)
    requires j < |vs| && !SlotHasType(t, vs[j])
    ensures !SlotsHaveType(t, vs)
  {
    hide SlotHasType;
  }

  lemma {:induction false} FieldsSnoc(ts: seq<Type>, vs: seq<Value>, t: Type, v: Value)
    requires |ts| == |vs| && SlotsHaveTypes(ts, vs) && SlotHasType(t, v)
    ensures SlotsHaveTypes(ts + [t], vs + [v]) && EncodeFields(ts + [t], vs + [v]) == EncodeFields(ts, vs) + EncodeSlot(t, v)
    decreases |vs|
  {
    hide EncodeSlot, SlotHasType;
    assert forall i | 0 <= i < |vs + [v]| :: SlotHasType((ts + [t])[i], (vs + [v])[i]);
    if vs == [] {
      assert [v][1..] == [] && [t][1..] == [] && vs + [v] == [v] && ts + [t] == [t];
      assert EncodeFields([t], [v]) == EncodeSlot(t, v) + EncodeFields([], []);
    } else {
      assert (vs + [v])[1..] == vs[1..] + [v] && (ts + [t])[1..] == ts[1..] + [t];
      FieldsSnoc(ts[1..], vs[1..], t, v);
    }
  }

  /** One more field of a struct. */
  lemma {:induction false} FieldsNext(ts: seq<Type>, vs: seq<Value>, j: nat)
    requires j < |vs| == |ts| && SlotsHaveTypes(ts[..j], vs[..j])
    ensures SlotHasType(ts[j], vs[j]) ==>
              && SlotsHaveTypes(ts[..j + 1], vs[..j + 1])
              && EncodeFields(ts[..j + 1], vs[..j + 1]) == EncodeFields(ts[..j], vs[..j]) + EncodeSlot(ts[j], vs[j])
    ensures !SlotHasType(ts[j], vs[j]) ==> !SlotsHaveTypes(ts, vs)
  {
    hide EncodeSlot, EncodeFields, SlotHasType;
    assert vs[..j + 1] == vs[..j] + [vs[j]] && ts[..j + 1] == ts[..j] + [ts[j]];
    if SlotHasType(ts[j], vs[j]) { FieldsSnoc(ts[..j], vs[..j], ts[j], vs[j]); }
  }

  // ----- the bulk copy -----

  lemma WindowNext(a: Arr, s: nat, z: nat)
    requires s < z
    ensures |Window(a, s, z)| == z - s && Window(a, s, z)[0] == At(a, s) && Window(a, s, z)[1..] == Window(a, s + 1, z)
  {
    hide ValueAt;
    assert forall j | 0 <= j < z - s - 1 :: Window(a, s, z)[1..][j] == Window(a, s + 1, z)[j];
  }

  /** Where the bytes of slot `s` start. */
  function LaneAt(a: Arr, w: nat, s: nat): nat { (a.off + s) * w }

  lemma {:induction false} LaneBounds(w: nat, a: Arr, s: nat, z: nat)
    requires Arrays.SoundArray(Fixed(w), a) && s <= z <= a.len
    ensures a.buf.FixedBuf? && LaneAt(a, w, s) <= LaneAt(a, w, z) <= |a.buf.raw|
    ensures s < z ==> LaneAt(a, w, s) + w == LaneAt(a, w, s + 1) <= LaneAt(a, w, z)
  {
    Scaled(a.off + z, Slots(a.buf), w);
    Scaled(a.off + s, a.off + z, w);
    if s < z { Scaled(a.off + (s + 1), a.off + z, w); }
  }

  lemma Scaled(x: nat, y: nat, w: nat)
    requires x <= y
    ensures x * w <= y * w && (x + 1) * w == x * w + w
  {
    assert y * w == x * w + (y - x) * w;
  }

  lemma FirstLane(w: nat, a: Arr, s: nat, z: nat)
    requires Arrays.SoundArray(Fixed(w), a) && s < z <= a.len && At(a, s) != Null
    ensures var p, m := LaneAt(a, w, s), LaneAt(a, w, s + 1);
            && a.buf.FixedBuf? && p + w == m <= |a.buf.raw|
            && HasType(Fixed(w), At(a, s)) && Encode(Fixed(w), At(a, s)) == a.buf.raw[p..m]
  {
    hide ValueAt;
    LaneBounds(w, a, s, z);
    Arrays.FixedSlot(w, a, s);
  }

  /** Copying an all-valid run of lanes in one piece writes what the element loop writes. */
  lemma {:induction false} BulkIsElements(w: nat, a: Arr, s: nat, z: nat)
    requires Arrays.SoundArray(Fixed(w), a) && s <= z <= a.len
    requires forall j | s <= j < z :: At(a, j) != Null
    ensures var p, q := LaneAt(a, w, s), LaneAt(a, w, z);
            && a.buf.FixedBuf? && p <= q <= |a.buf.raw| && SlotsHaveType(Fixed(w), Window(a, s, z))
            && EncodeElems(Fixed(w), Window(a, s, z)) == a.buf.raw[p..q]
    decreases z - s
  {
    hide ValueAt, At, Window, LaneAt, Arrays.SoundArray, HasType, Encode;
    LaneBounds(w, a, s, z);
    if s == z {
      NoWindow(a, s);
    } else {
      WindowNext(a, s, z);
      BulkIsElements(w, a, s + 1, z);
      FirstLane(w, a, s, z);
      var p, m, q := LaneAt(a, w, s), LaneAt(a, w, s + 1), LaneAt(a, w, z);
      var vs := Window(a, s, z);
      assert SlotsHaveType(Fixed(w), vs) by {
        assert forall j | 0 < j < |vs| :: vs[j] == vs[1..][j - 1];
      }
      assert a.buf.raw[p..q] == a.buf.raw[p..m] + a.buf.raw[m..q];
    }
  }

  lemma {:induction false} NoWindow(a: Arr, s: nat)
    ensures Window(a, s, s) == []
  {
  }
}
