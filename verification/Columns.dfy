/** Arrow columns: the buffers an array builder fills, the logical value of a slot, and the layout
    rules of the Arrow columnar format (its "Physical Memory Layout" section).

    A builder keeps one start offset per slot and leaves the last slot open-ended; a finished array
    has one offset more.  `SlotEnd` reads both. */
module Columns {
  import opened Wire
  import opened RowTypes

  /** An array: a window of `len` slots from `off` on over some buffers. */
  datatype Arr = Arr(off: nat, len: nat, buf: Buf)

  datatype Buf =
    | BoolBuf(valid: seq<bool>, bits: seq<bool>)
    | FixedBuf(valid: seq<bool>, width: nat, raw: bytes)
    | VarBuf(valid: seq<bool>, starts: seq<nat>, data: bytes)
    | StructBuf(valid: seq<bool>, kids: seq<Arr>)
    | ListBuf(valid: seq<bool>, starts: seq<nat>, kid: Arr)
    | FslBuf(valid: seq<bool>, size: nat, kid: Arr)
    | MapBuf(valid: seq<bool>, starts: seq<nat>, keys: Arr, items: Arr)
    | UnionBuf(dense: bool, codes: seq<nat>, ids: seq<nat>, places: seq<nat>, kids: seq<Arr>)

  function Slots(b: Buf): nat
  {
    if b.UnionBuf? then |b.ids| else |b.valid|
  }

  function Whole(b: Buf): Arr { Arr(0, Slots(b), b) }

  function Nth<T>(s: seq<T>, i: nat, d: T): T { if i < |s| then s[i] else d }

  function Slice(s: bytes, a: nat, b: nat): bytes { if a <= b <= |s| then s[a..b] else [] }

  function SlotEnd(starts: seq<nat>, i: nat, total: nat): nat { Nth(starts, i + 1, total) }

  // ----- logical values -----

  /** The value in slot `i` of the buffers.  A union slot whose arm holds a null is null. */
  function ValueAt(b: Buf, i: nat): Value
    decreases b, 0
  {
    if !b.UnionBuf? && !Nth(b.valid, i, false) then Null
    else
      match b
      case BoolBuf(_, bits) => BoolV(Nth(bits, i, false))
      case FixedBuf(_, w, raw) => FixedV(Slice(raw, i * w, i * w + w))
      case VarBuf(_, starts, data) => VarV(Slice(data, Nth(starts, i, 0), SlotEnd(starts, i, |data|)))
      case StructBuf(_, kids) => StructV(seq(|kids|, k requires 0 <= k < |kids| => At(kids[k], i)))
      case ListBuf(_, starts, kid) => ListV(Window(kid, Nth(starts, i, 0), SlotEnd(starts, i, kid.len)))
      case FslBuf(_, n, kid) => ListV(Window(kid, i * n, i * n + n))
      case MapBuf(_, starts, keys, items) =>
        var a, z := Nth(starts, i, 0), SlotEnd(starts, i, items.len);
        MapV(Window(keys, a, z), Window(items, a, z))
      case UnionBuf(dense, codes, ids, places, kids) =>
        var k := ChildId(codes, Nth(ids, i, 0));
        if k < 0 || k >= |kids| then Null
        else
          var v := At(kids[k], if dense then Nth(places, i, 0) else i);
          if v == Null then Null else UnionV(Nth(ids, i, 0), v)
  }

  function At(a: Arr, i: nat): Value
    decreases a, 0
  {
    ValueAt(a.buf, a.off + i)
  }

  /** Slots `a` up to `z` of an array. */
  function Window(kid: Arr, a: nat, z: nat): seq<Value>
    decreases kid, 1
  {
    if a <= z then seq(z - a, j requires 0 <= j < z - a => At(kid, a + j)) else []
  }

  lemma {:induction false} WindowAt(kid: Arr, a: nat, z: nat)
    requires a <= z
    ensures |Window(kid, a, z)| == z - a
    ensures forall j | 0 <= j < z - a :: Window(kid, a, z)[j] == At(kid, a + j)
  {
    hide ValueAt;
  }

  // ----- the layout rules -----

  predicate StartsOk(starts: seq<nat>, slots: nat, total: nat)
  {
    && |starts| == slots
    && (forall i, j | 0 <= i <= j < |starts| :: starts[i] <= starts[j])
    && (forall i | 0 <= i < |starts| :: starts[i] <= total)
  }

  /** `b` is what a builder of type `t` may hold: a well-laid-out column of that type. */
  ghost predicate Built(t: Type, b: Buf)
    decreases t, 0
  {
    match t
    case Bool => b.BoolBuf? && |b.bits| == |b.valid|
    case Fixed(w) => b.FixedBuf? && b.width == w && |b.raw| == |b.valid| * w
    case VarLen(_) => b.VarBuf? && StartsOk(b.starts, |b.valid|, |b.data|)
    case Struct(ts) =>
      && b.StructBuf? && |b.kids| == |ts|
      && forall k | 0 <= k < |ts| :: KidBuilt(ts[k], b.kids[k]) && b.kids[k].len == |b.valid|
    case List(_, e) => b.ListBuf? && KidBuilt(e, b.kid) && StartsOk(b.starts, |b.valid|, b.kid.len)
    case FixedSizeList(n, e) =>
      b.FslBuf? && b.size == n && KidBuilt(e, b.kid) && b.kid.len == |b.valid| * n
    case Map(k, i) =>
      && b.MapBuf? && KidBuilt(k, b.keys) && KidBuilt(i, b.items)
      && b.keys.len == b.items.len && StartsOk(b.starts, |b.valid|, b.items.len)
    case Union(dense, codes, arms) =>
      && b.UnionBuf? && b.dense == dense && b.codes == codes && |b.kids| == |arms|
      && (forall k | 0 <= k < |arms| :: KidBuilt(arms[k], b.kids[k]))
      && (forall i | 0 <= i < |b.ids| :: 0 <= ChildId(codes, b.ids[i]) < |arms|)
      && if dense then
           && |b.places| == |b.ids|
           && forall i | 0 <= i < |b.ids| :: b.places[i] < b.kids[ChildId(codes, b.ids[i])].len
         else
           b.places == [] && forall k | 0 <= k < |arms| :: b.kids[k].len == |b.ids|
  }

  ghost predicate KidBuilt(t: Type, a: Arr)
    decreases t, 1
  {
    a == Whole(a.buf) && Built(t, a.buf)
  }
}
