/** Arrow arrays as the encoder reads them: any window over structurally valid buffers, children
    sliced or longer than needed, offsets with or without the final one. */
module Arrays {
  import opened RowTypes
  import opened Columns
  import Builders

  /** Each of the first `slots` offsets starts a range inside the child. */
  predicate OffsetsOk(starts: seq<nat>, slots: nat, total: nat)
  {
    |starts| >= slots && forall i | 0 <= i < slots :: starts[i] <= SlotEnd(starts, i, total) <= total
  }

  /** What `arrow::Array::Validate` checks, plus what only `ValidateFull` does: offsets in order between
      the first and the last, also outside the window, known union codes and in-range dense offsets. */
  predicate Sound(t: Type, b: Buf)
    decreases t, 0
  {
    match t
    case Bool => b.BoolBuf? && |b.bits| >= |b.valid|
    case Fixed(w) => b.FixedBuf? && b.width == w && |b.raw| >= |b.valid| * w
    case VarLen(_) => b.VarBuf? && OffsetsOk(b.starts, |b.valid|, |b.data|)
    case Struct(ts) =>
      && b.StructBuf? && |b.kids| == |ts|
      && forall k | 0 <= k < |ts| :: SoundArray(ts[k], b.kids[k]) && b.kids[k].len >= |b.valid|
    case List(_, e) => b.ListBuf? && SoundArray(e, b.kid) && OffsetsOk(b.starts, |b.valid|, b.kid.len)
    case FixedSizeList(n, e) =>
      b.FslBuf? && b.size == n && SoundArray(e, b.kid) && b.kid.len >= |b.valid| * n
    case Map(k, i) =>
      && b.MapBuf? && SoundArray(k, b.keys) && SoundArray(i, b.items)
      && b.keys.len >= b.items.len && OffsetsOk(b.starts, |b.valid|, b.items.len)
    case Union(dense, codes, arms) =>
      && b.UnionBuf? && b.dense == dense && b.codes == codes && |b.kids| == |arms|
      && (forall k | 0 <= k < |arms| :: SoundArray(arms[k], b.kids[k]) && (!dense ==> b.kids[k].len >= |b.ids|))
      && (forall i | 0 <= i < |b.ids| :: 0 <= ChildId(codes, b.ids[i]) < |arms| && b.ids[i] < 128)
      && (dense ==>
            && |b.places| >= |b.ids|
            && forall i | 0 <= i < |b.ids| :: b.places[i] < b.kids[ChildId(codes, b.ids[i])].len)
  }

  /** A window that lies inside its buffers. */
  predicate SoundArray(t: Type, a: Arr)
    decreases t, 1
  {
    a.off + a.len <= Slots(a.buf) && Sound(t, a.buf)
  }

  /** `Array::IsNull`: a union slot is null when its arm's slot is. */
  predicate IsNull(b: Buf, i: nat)
    ensures IsNull(b, i) <==> ValueAt(b, i) == Null
  {
    match b
    case UnionBuf(dense, codes, ids, places, kids) =>
      var k := ChildId(codes, Nth(ids, i, 0));
      k < 0 || k >= |kids| || IsNull(kids[k].buf, kids[k].off + if dense then Nth(places, i, 0) else i)
    case _ => !Nth(b.valid, i, false)
  }

  /** `StructArray::field`: the child in the parent's window. */
  function FieldOf(a: Arr, k: nat): Arr
    requires a.buf.StructBuf? && k < |a.buf.kids|
  {
    var kid := a.buf.kids[k];
    Arr(kid.off + a.off, a.len, kid.buf)
  }

  lemma {:induction false} FieldAt(a: Arr, k: nat, i: nat)
    requires a.buf.StructBuf? && k < |a.buf.kids| && At(a, i) != Null
    ensures At(a, i).StructV? && |At(a, i).fields| == |a.buf.kids| && At(a, i).fields[k] == At(FieldOf(a, k), i)
  {
    var kid := a.buf.kids[k];
    assert At(a, i) == ValueAt(a.buf, a.off + i);
    assert ValueAt(a.buf, a.off + i).fields[k] == At(kid, a.off + i) == ValueAt(kid.buf, kid.off + a.off + i);
  }

  lemma {:induction false} FieldIsSound(ts: seq<Type>, a: Arr, k: nat)
    requires SoundArray(Struct(ts), a) && k < |ts|
    ensures a.buf.StructBuf? && |a.buf.kids| == |ts| && SoundArray(ts[k], FieldOf(a, k))
  {
    assert SoundArray(ts[k], a.buf.kids[k]);
  }

  // ----- one slot of each layout -----

  lemma {:induction false} BoolSlot(a: Arr, i: nat)
    requires SoundArray(Bool, a) && i < a.len && At(a, i) != Null
    ensures a.buf.BoolBuf? && a.off + i < |a.buf.bits| && At(a, i) == BoolV(a.buf.bits[a.off + i])
  {
  }

  lemma {:induction false} FixedSlot(w: nat, a: Arr, i: nat)
    requires SoundArray(Fixed(w), a) && i < a.len && At(a, i) != Null
    ensures var p := (a.off + i) * w; a.buf.FixedBuf? && p + w <= |a.buf.raw| && At(a, i) == FixedV(a.buf.raw[p..p + w])
  {
    Builders.Lanes(a.off + i, |a.buf.valid|, w);
    Builders.FixedAt(a.buf, a.off + i);
    hide ValueAt;
  }

  lemma {:induction false} VarSlot(budgeted: bool, a: Arr, i: nat)
    requires SoundArray(VarLen(budgeted), a) && i < a.len && At(a, i) != Null
    ensures a.buf.VarBuf? && a.off + i < |a.buf.starts|
    ensures var s, z := a.buf.starts[a.off + i], SlotEnd(a.buf.starts, a.off + i, |a.buf.data|);
            s <= z <= |a.buf.data| && At(a, i) == VarV(a.buf.data[s..z])
  {
  }

  lemma {:induction false} ListSlot(large: bool, e: Type, a: Arr, i: nat)
    requires SoundArray(List(large, e), a) && i < a.len && At(a, i) != Null
    ensures a.buf.ListBuf? && a.off + i < |a.buf.starts| && SoundArray(e, a.buf.kid)
    ensures var s, z := a.buf.starts[a.off + i], SlotEnd(a.buf.starts, a.off + i, a.buf.kid.len);
            s <= z <= a.buf.kid.len && At(a, i) == ListV(Window(a.buf.kid, s, z))
  {
    hide Window;
  }

  lemma {:induction false} FslSlot(n: nat, e: Type, a: Arr, i: nat)
    requires SoundArray(FixedSizeList(n, e), a) && i < a.len && At(a, i) != Null
    ensures a.buf.FslBuf? && SoundArray(e, a.buf.kid)
    ensures var s := (a.off + i) * n; s + n <= a.buf.kid.len && At(a, i) == ListV(Window(a.buf.kid, s, s + n))
  {
    hide Window;
    Builders.Lanes(a.off + i, |a.buf.valid|, n);
  }

  lemma {:induction false} MapSlot(k: Type, v: Type, a: Arr, i: nat)
    requires SoundArray(Map(k, v), a) && i < a.len && At(a, i) != Null
    ensures a.buf.MapBuf? && a.off + i < |a.buf.starts| && SoundArray(k, a.buf.keys) && SoundArray(v, a.buf.items)
    ensures var s, z := a.buf.starts[a.off + i], SlotEnd(a.buf.starts, a.off + i, a.buf.items.len);
            && s <= z <= a.buf.items.len <= a.buf.keys.len
            && At(a, i) == MapV(Window(a.buf.keys, s, z), Window(a.buf.items, s, z))
  {
    hide Window;
  }

  /** Where the arm of a union slot is. */
  function ArmIndex(a: Arr, i: nat): nat
    requires a.buf.UnionBuf?
  {
    if a.buf.dense then Nth(a.buf.places, a.off + i, 0) else a.off + i
  }

  lemma {:induction false} UnionSlot(t: Type, a: Arr, i: nat)
    requires t.Union? && SoundArray(t, a) && i < a.len && At(a, i) != Null
    ensures a.buf.UnionBuf? && a.buf.dense == t.dense && a.off + i < |a.buf.ids| && |a.buf.kids| == |t.arms|
    ensures var code := a.buf.ids[a.off + i];
            var k := ChildId(t.codes, code);
            && code < 128 && 0 <= k < |t.arms| && SoundArray(t.arms[k], a.buf.kids[k])
            && ArmIndex(a, i) < a.buf.kids[k].len && At(a.buf.kids[k], ArmIndex(a, i)) != Null
            && At(a, i) == UnionV(code, At(a.buf.kids[k], ArmIndex(a, i)))
  {
  }

  lemma {:induction false} BuiltIsSound(t: Type, b: Buf)
    requires TypeOk(t) && Built(t, b)
    ensures Sound(t, b)
    decreases t
  {
    match t
    case Struct(ts) =>
      forall k | 0 <= k < |ts| ensures Sound(ts[k], b.kids[k].buf) { BuiltIsSound(ts[k], b.kids[k].buf); }
    case List(_, e) => BuiltIsSound(e, b.kid.buf);
    case FixedSizeList(_, e) => BuiltIsSound(e, b.kid.buf);
    case Map(k, i) =>
      BuiltIsSound(k, b.keys.buf);
      BuiltIsSound(i, b.items.buf);
    case Union(_, codes, arms) =>
      forall k | 0 <= k < |arms| ensures Sound(arms[k], b.kids[k].buf) { BuiltIsSound(arms[k], b.kids[k].buf); }
    case _ =>
  }
}
