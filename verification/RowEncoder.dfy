/** `Codec`'s encoder over Arrow arrays: it walks one slot of an array, patches null bits behind
    itself and copies all-valid runs in one piece. */
module RowEncoder {
  import opened Wire
  import opened RowTypes
  import opened CodecSpec
  import opened RowReader
  import opened Columns
  import opened Arrays
  import opened Writer
  import opened EncodeSteps
  import CodecLaws

  /** The encoder accepts exactly the values the format can carry, appends their encoding, and on an
      error leaves the earlier bytes in place. */
  ghost predicate Wrote(t: Type, v: Value, was: bytes, now: bytes, ok: bool)
  {
    (ok <==> HasType(t, v)) && if ok then now == was + Encode(t, v) else was <= now
  }

  /** The same for a bitfield and the payloads under it. */
  ghost predicate WroteList(t: Type, vs: seq<Value>, was: bytes, now: bytes, ok: bool)
  {
    && (ok <==> SlotsHaveType(t, vs))
    && if ok then now == Layout(was, NullFlags(vs), EncodeElems(t, vs)) else was <= now
  }

  /** The body of a list: null bits first, then one copy or one element at a time. */
  method EncodeElements(w: WriteBuffer, a: Arr, start: nat, count: nat, t: Type) returns (ok: bool)
    requires SoundArray(t, a) && start + count <= a.len && TypeOk(t)
    modifies w
    ensures WroteList(t, Window(a, start, start + count), old(w.data), w.data, ok)
    decreases t, 2
  {
    hide ValueAt, At, Window, HasType, Encode, SoundArray, FlagsUpTo, NullFlags, Layout, EncodeElems, SlotsHaveType, LaneAt;
    ghost var pre, vs := w.data, Window(a, start, start + count);
    WindowAt(a, start, start + count);
    FlagsEnds(vs);
    var anyNull := WriteNulls(w, a, start, count);
    if !anyNull && FixedWidth(t) > 0 && !t.Bool? {
      BulkIsElements(t.width, a, start, start + count);
      var raw := a.buf.raw[LaneAt(a, t.width, start)..LaneAt(a, t.width, start + count)];
      w.Append(raw);
      LayoutAppend(pre, NullFlags(vs), [], raw);
      assert [] + raw == raw;
      return true;
    }
    ok := WritePayloads(w, a, start, count, t, pre);
  }

  method WriteNulls(w: WriteBuffer, a: Arr, start: nat, count: nat) returns (anyNull: bool)
    requires start + count <= a.len
    modifies w
    ensures w.data == Layout(old(w.data), NullFlags(Window(a, start, start + count)), [])
    ensures anyNull <==> exists j | start <= j < start + count :: At(a, j) == Null
  {
    hide ValueAt, At, Window, FlagsUpTo, NullFlags, Layout;
    ghost var pre, vs := w.data, Window(a, start, start + count);
    WindowAt(a, start, start + count);
    FlagsEnds(vs);
    anyNull := false;
    var pos := w.BeginBits(count);
    for j := 0 to count
      invariant w.data == Layout(pre, FlagsUpTo(vs, j), [])
      invariant anyNull <==> exists k | start <= k < start + j :: At(a, k) == Null
    {
      FlagsStep(vs, j);
      if SlotIsNull(a, start + j) {
        w.SetNull(pos, j, pre, FlagsUpTo(vs, j), []);
        anyNull := true;
        assert At(a, start + j) == Null;
      }
    }
  }

  predicate SlotIsNull(a: Arr, i: nat)
    ensures SlotIsNull(a, i) <==> At(a, i) == Null
  {
    IsNull(a.buf, a.off + i)
  }

  method WritePayloads(w: WriteBuffer, a: Arr, start: nat, count: nat, t: Type, ghost pre: bytes) returns (ok: bool)
    requires SoundArray(t, a) && start + count <= a.len && TypeOk(t)
    requires w.data == Layout(pre, NullFlags(Window(a, start, start + count)), [])
    modifies w
    ensures WroteList(t, Window(a, start, start + count), pre, w.data, ok)
    decreases t, 1
  {
    hide ValueAt, At, Window, HasType, Encode, SoundArray, NullFlags, Layout, EncodeElems, SlotsHaveType;
    ghost var vs := Window(a, start, start + count);
    ghost var flags := NullFlags(vs);
    WindowAt(a, start, start + count);
    assert vs[..0] == [] && SlotsHaveType(t, []) && EncodeElems(t, []) == [] by { NothingYet(t); }
    for j := 0 to count
      invariant SlotsHaveType(t, vs[..j]) && w.data == Layout(pre, flags, EncodeElems(t, vs[..j]))
    {
      EncodeSteps.ElemsNext(t, vs, j);
      if !SlotIsNull(a, start + j) {
        ok := EncodeElement(w, a, start + j, t);
        if !ok {
          ElemsSpoilt(t, vs, j);
          LayoutKeeps(pre, flags, EncodeElems(t, vs[..j]));
          return;
        }
        LayoutAppend(pre, flags, EncodeElems(t, vs[..j]), Encode(t, vs[j]));
      } else {
        assert EncodeElems(t, vs[..j]) + [] == EncodeElems(t, vs[..j]);
      }
    }
    assert vs[..count] == vs;
    return true;
  }

  lemma {:induction false} NothingYet(t: Type)
    ensures SlotsHaveType(t, []) && EncodeElems(t, []) == []
  {
  }

  /** One non-null slot of an array. */
  method EncodeElement(w: WriteBuffer, a: Arr, i: nat, t: Type) returns (ok: bool)
    requires SoundArray(t, a) && i < a.len && TypeOk(t) && At(a, i) != Null
    modifies w
    ensures Wrote(t, At(a, i), old(w.data), w.data, ok)
    decreases t, 0
  {
    hide ValueAt, At, SoundArray, TypeOk, Wrote;
    match t {
      case Struct(_) => ok := EncodeStruct(w, a, i, t);
      case List(_, _) => ok := EncodeList(w, a, i, t);
      case FixedSizeList(_, _) => ok := EncodeFixedSizeList(w, a, i, t);
      case Map(_, _) => ok := EncodeMap(w, a, i, t);
      case Union(_, _, _) => ok := EncodeUnion(w, a, i, t);
      case _ => ok := EncodeScalar(w, a, i, t);
    }
  }

  method EncodeList(w: WriteBuffer, a: Arr, i: nat, t: Type) returns (ok: bool)
    requires SoundArray(t, a) && i < a.len && TypeOk(t) && At(a, i) != Null && t.List?
    modifies w
    ensures Wrote(t, At(a, i), old(w.data), w.data, ok)
    decreases t, 0, 0
  {
    hide ValueAt, At, Window, SoundArray, NullFlags, Layout, EncodeElems, SlotsHaveType;
    ghost var pre := w.data;
    ListSlot(t.large, t.elem, a, i);
    var s := a.buf.starts[a.off + i];
    var n := SlotEnd(a.buf.starts, a.off + i, a.buf.kid.len) - s;
    WindowAt(a.buf.kid, s, s + n);
    if n >= U32_LIMIT { return false; }
    w.AppendU32(n);
    ok := EncodeElements(w, a.buf.kid, s, n, t.elem);
    if ok { LayoutOf(pre, U32(n), NullFlags(At(a, i).elems), EncodeElems(t.elem, At(a, i).elems)); }
  }

  method EncodeFixedSizeList(w: WriteBuffer, a: Arr, i: nat, t: Type) returns (ok: bool)
    requires SoundArray(t, a) && i < a.len && TypeOk(t) && At(a, i) != Null && t.FixedSizeList?
    modifies w
    ensures Wrote(t, At(a, i), old(w.data), w.data, ok)
    decreases t, 0, 0
  {
    hide ValueAt, At, Window, SoundArray, NullFlags, Layout, EncodeElems, SlotsHaveType;
    ghost var pre := w.data;
    FslSlot(t.size, t.elem, a, i);
    var s := (a.off + i) * t.size;
    WindowAt(a.buf.kid, s, s + t.size);
    ok := EncodeElements(w, a.buf.kid, s, t.size, t.elem);
    if ok { LayoutOf(pre, [], NullFlags(At(a, i).elems), EncodeElems(t.elem, At(a, i).elems)); }
  }

  lemma LayoutOf(pre: bytes, count: bytes, flags: seq<bool>, payload: bytes)
    ensures Layout(pre + count, flags, payload) == pre + (count + (Pack(flags) + payload))
    ensures count == [] ==> Layout(pre + count, flags, payload) == Layout(pre, flags, payload) == pre + (Pack(flags) + payload)
  {
    hide Pack;
  }

  method EncodeScalar(w: WriteBuffer, a: Arr, i: nat, t: Type) returns (ok: bool)
    requires SoundArray(t, a) && i < a.len && At(a, i) != Null && (t.Bool? || t.Fixed? || t.VarLen?)
    modifies w
    ensures Wrote(t, At(a, i), old(w.data), w.data, ok)
  {
    hide ValueAt, At, SoundArray, EncodeElems, EncodeFields, SlotsHaveType, SlotsHaveTypes;
    match t {
      case Bool =>
        BoolSlot(a, i);
        w.Append([if a.buf.bits[a.off + i] then 1 else 0]);
      case Fixed(width) =>
        FixedSlot(width, a, i);
        w.Append(a.buf.raw[(a.off + i) * width..(a.off + i) * width + width]);
      case VarLen(b) =>
        VarSlot(b, a, i);
        var view := a.buf.data[a.buf.starts[a.off + i]..SlotEnd(a.buf.starts, a.off + i, |a.buf.data|)];
        if |view| >= U32_LIMIT { return false; }
        ghost var pre := w.data;
        w.AppendU32(|view|);
        w.Append(view);
        CodecLaws.Assoc(pre, U32(|view|), view);
    }
    return true;
  }

  method EncodeUnion(w: WriteBuffer, a: Arr, i: nat, t: Type) returns (ok: bool)
    requires SoundArray(t, a) && i < a.len && TypeOk(t) && At(a, i) != Null && t.Union?
    modifies w
    ensures Wrote(t, At(a, i), old(w.data), w.data, ok)
    decreases t, 0, 0
  {
    hide ValueAt, At, SoundArray, EncodeElems, EncodeFields, SlotsHaveType, SlotsHaveTypes;
    UnionSlot(t, a, i);
    var code := a.buf.ids[a.off + i];
    var k := ChildId(t.codes, code);
    ghost var pre := w.data;
    w.Append([code]);
    ok := EncodeElement(w, a.buf.kids[k], ArmIndex(a, i), t.arms[k]);
    if ok { CodecLaws.Assoc(pre, [code], Encode(t.arms[k], At(a, i).arm)); }
  }

  method EncodeStruct(w: WriteBuffer, a: Arr, i: nat, t: Type) returns (ok: bool)
    requires SoundArray(t, a) && i < a.len && TypeOk(t) && At(a, i) != Null && t.Struct?
    modifies w
    ensures Wrote(t, At(a, i), old(w.data), w.data, ok)
    decreases t, 0, 0
  {
    hide ValueAt, At, SoundArray, FlagsUpTo, NullFlags, Layout, EncodeFields, SlotsHaveTypes, HasType, Encode;
    var ts := t.fields;
    ghost var pre, v := w.data, At(a, i);
    StructSlot(ts, a, i);
    ghost var vs := v.fields;
    FlagsEnds(vs);
    var pos := w.BeginBits(|ts|);
    NoFields(ts, vs);
    for k := 0 to |ts|
      invariant SlotsHaveTypes(ts[..k], vs[..k])
      invariant w.data == Layout(pre, FlagsUpTo(vs, k), EncodeFields(ts[..k], vs[..k]))
    {
      ghost var payload := EncodeFields(ts[..k], vs[..k]);
      FieldsNext(ts, vs, k);
      FlagsStep(vs, k);
      FieldAt(a, k, i);
      FieldIsSound(ts, a, k);
      if SlotIsNull(FieldOf(a, k), i) {
        w.SetNull(pos, k, pre, FlagsUpTo(vs, k), payload);
        assert payload + [] == payload;
      } else {
        ok := EncodeElement(w, FieldOf(a, k), i, ts[k]);
        if !ok {
          StructType(ts, vs);
          LayoutKeeps(pre, FlagsUpTo(vs, k), payload);
          return;
        }
        LayoutAppend(pre, FlagsUpTo(vs, k), payload, Encode(ts[k], vs[k]));
      }
    }
    assert ts[..|ts|] == ts && vs[..|ts|] == vs;
    StructType(ts, vs);
    LayoutOf(pre, [], NullFlags(vs), EncodeFields(ts, vs));
    return true;
  }

  lemma {:induction false} StructSlot(ts: seq<Type>, a: Arr, i: nat)
    requires SoundArray(Struct(ts), a) && At(a, i) != Null
    ensures a.buf.StructBuf? && |a.buf.kids| == |ts| && At(a, i).StructV? && |At(a, i).fields| == |ts|
  {
  }

  lemma NoFields(ts: seq<Type>, vs: seq<Value>)
    requires |ts| == |vs|
    ensures SlotsHaveTypes(ts[..0], vs[..0]) && EncodeFields(ts[..0], vs[..0]) == []
  {
  }

  lemma {:induction false} StructType(ts: seq<Type>, vs: seq<Value>)
    requires |ts| == |vs|
    ensures HasType(Struct(ts), StructV(vs)) <==> SlotsHaveTypes(ts, vs)
    ensures SlotsHaveTypes(ts, vs) ==> Encode(Struct(ts), StructV(vs)) == Pack(NullFlags(vs)) + EncodeFields(ts, vs)
  {
    hide EncodeFields, SlotsHaveTypes;
  }

  method EncodeMap(w: WriteBuffer, a: Arr, i: nat, t: Type) returns (ok: bool)
    requires SoundArray(t, a) && i < a.len && TypeOk(t) && At(a, i) != Null && t.Map?
    modifies w
    ensures Wrote(t, At(a, i), old(w.data), w.data, ok)
    decreases t, 0, 1
  {
    hide ValueAt, At, Window, SoundArray, NullFlags, EncodeElems, SlotsHaveType, HasType, Encode;
    MapSlot(t.key, t.item, a, i);
    var s := a.buf.starts[a.off + i];
    var n := SlotEnd(a.buf.starts, a.off + i, a.buf.items.len) - s;
    ok := EncodeEntries(w, a.buf.keys, a.buf.items, s, n, t);
  }

  /** Map entries: the count, the keys, then the items under their null bits. */
  method EncodeEntries(w: WriteBuffer, keys: Arr, items: Arr, s: nat, n: nat, t: Type) returns (ok: bool)
    requires t.Map? && TypeOk(t) && SoundArray(t.key, keys) && SoundArray(t.item, items)
    requires s + n <= keys.len && s + n <= items.len
    modifies w
    ensures Wrote(t, MapV(Window(keys, s, s + n), Window(items, s, s + n)), old(w.data), w.data, ok)
    decreases t, 0, 0
  {
    hide ValueAt, At, Window, SoundArray, NullFlags, EncodeElems, SlotsHaveType, HasType, Encode;
    ghost var pre, ks, vs := w.data, Window(keys, s, s + n), Window(items, s, s + n);
    WindowAt(keys, s, s + n);
    WindowAt(items, s, s + n);
    MapType(t.key, t.item, ks, vs);
    if n >= U32_LIMIT { return false; }
    w.AppendU32(n);
    ok := EncodeKeys(w, keys, s, n, t.key);
    if !ok { return; }
    ghost var mid := w.data;
    ok := EncodeItems(w, items, s, n, t.item);
    if ok { MapBytes(pre, U32(n), EncodeElems(t.key, ks), NullFlags(vs), EncodeElems(t.item, vs)); }
  }

  lemma {:induction false} MapType(k: Type, i: Type, ks: seq<Value>, vs: seq<Value>)
    requires |ks| == |vs|
    ensures HasType(Map(k, i), MapV(ks, vs))
        <==> |ks| < U32_LIMIT && SlotsHaveType(k, ks) && Null !in ks && SlotsHaveType(i, vs)
    ensures HasType(Map(k, i), MapV(ks, vs)) ==>
              Encode(Map(k, i), MapV(ks, vs))
              == U32(|ks|) + (EncodeElems(k, ks) + (Pack(NullFlags(vs)) + EncodeElems(i, vs)))
  {
    hide EncodeElems, SlotsHaveType;
  }

  lemma MapBytes(pre: bytes, count: bytes, keys: bytes, flags: seq<bool>, items: bytes)
    ensures Layout(pre + count + keys, flags, items) == pre + (count + (keys + (Pack(flags) + items)))
  {
    hide Pack;
    CodecLaws.Assoc(pre, count, keys);
    CodecLaws.Assoc(pre, count + keys, Pack(flags) + items);
    CodecLaws.Assoc(count, keys, Pack(flags) + items);
  }

  /** Keys carry no null bits, and a null key is an error. */
  method EncodeKeys(w: WriteBuffer, a: Arr, start: nat, count: nat, t: Type) returns (ok: bool)
    requires SoundArray(t, a) && start + count <= a.len && TypeOk(t)
    modifies w
    ensures var ks := Window(a, start, start + count);
            && (ok <==> SlotsHaveType(t, ks) && Null !in ks)
            && if ok then w.data == old(w.data) + EncodeElems(t, ks) else old(w.data) <= w.data
    decreases t, 1
  {
    hide ValueAt, At, Window, HasType, Encode, SoundArray, EncodeElems, SlotsHaveType;
    ghost var pre, ks := w.data, Window(a, start, start + count);
    WindowAt(a, start, start + count);
    assert ks[..0] == [] && SlotsHaveType(t, []) && EncodeElems(t, []) == [] by { NothingYet(t); }
    for j := 0 to count
      invariant SlotsHaveType(t, ks[..j]) && Null !in ks[..j] && w.data == pre + EncodeElems(t, ks[..j])
    {
      EncodeSteps.ElemsNext(t, ks, j);
      if SlotIsNull(a, start + j) {
        assert ks[j] == Null;
        return false;
      }
      ok := EncodeElement(w, a, start + j, t);
      if !ok {
        ElemsSpoilt(t, ks, j);
        return;
      }
      CodecLaws.Assoc(pre, EncodeElems(t, ks[..j]), Encode(t, ks[j]));
      assert ks[..j + 1] == ks[..j] + [ks[j]];
    }
    assert ks[..count] == ks;
    return true;
  }

  /** Items: null bits are patched while the payloads are written. */
  method EncodeItems(w: WriteBuffer, a: Arr, start: nat, count: nat, t: Type) returns (ok: bool)
    requires SoundArray(t, a) && start + count <= a.len && TypeOk(t)
    modifies w
    ensures WroteList(t, Window(a, start, start + count), old(w.data), w.data, ok)
    decreases t, 1
  {
    hide ValueAt, At, Window, HasType, Encode, SoundArray, FlagsUpTo, NullFlags, Layout, EncodeElems, SlotsHaveType;
    ghost var pre, vs := w.data, Window(a, start, start + count);
    WindowAt(a, start, start + count);
    FlagsEnds(vs);
    assert vs[..0] == [] && SlotsHaveType(t, []) && EncodeElems(t, []) == [] by { NothingYet(t); }
    var pos := w.BeginBits(count);
    for j := 0 to count
      invariant SlotsHaveType(t, vs[..j]) && w.data == Layout(pre, FlagsUpTo(vs, j), EncodeElems(t, vs[..j]))
    {
      ghost var payload := EncodeElems(t, vs[..j]);
      EncodeSteps.ElemsNext(t, vs, j);
      FlagsStep(vs, j);
      if SlotIsNull(a, start + j) {
        w.SetNull(pos, j, pre, FlagsUpTo(vs, j), payload);
        assert payload + [] == payload;
      } else {
        ok := EncodeElement(w, a, start + j, t);
        if !ok {
          ElemsSpoilt(t, vs, j);
          LayoutKeeps(pre, FlagsUpTo(vs, j), payload);
          return;
        }
        LayoutAppend(pre, FlagsUpTo(vs, j), payload, Encode(t, vs[j]));
      }
    }
    assert vs[..count] == vs;
    return true;
  }
}
