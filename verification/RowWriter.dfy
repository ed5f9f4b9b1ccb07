/** `Codec::EncodeRow`: scalars, dictionary cells and whole rows. */
module RowWriter {
  import opened Wire
  import opened RowTypes
  import opened CodecSpec
  import opened Columns
  import opened Arrays
  import opened Writer
  import opened EncodeSteps
  import opened RowEncoder
  import CodecRows

  /** An `arrow::Scalar`: nested lists and maps are held as arrays, everything else by value. */
  datatype Scalar =
    | NullS
    | BoolS(b: bool)
    | FixedS(raw: bytes)
    | VarS(data: bytes)
    | StructS(fields: seq<Scalar>)
    | ListS(values: Arr)
    | MapS(entries: Arr)
    | SparseS(code: int, children: seq<Scalar>)
    | DenseS(code: int, child: Scalar)

  /** The arm a union scalar names, or -1. */
  function ArmOf(t: Type, code: int): (r: int)
    requires t.Union?
    ensures -1 <= r < |t.codes| && (r >= 0 ==> 0 <= code < 128 && ChildId(t.codes, code) == r)
  {
    if code < 0 || code >= 128 then -1 else ChildId(t.codes, code)
  }

  /** Stands for a scalar that names no value, such as a union with an unknown code. */
  const NO_VALUE := UnionV(128, Null)

  /** The logical value of a scalar of type `t`. */
  function ScalarValue(t: Type, s: Scalar): Value
    decreases s
  {
    match (t, s)
    case (Bool, BoolS(b)) => BoolV(b)
    case (Fixed(_), FixedS(raw)) => FixedV(raw)
    case (VarLen(_), VarS(data)) => VarV(data)
    case (Struct(ts), StructS(fs)) =>
      if |fs| != |ts| then NO_VALUE else StructV(seq(|fs|, k requires 0 <= k < |fs| => ScalarValue(ts[k], fs[k])))
    case (List(_, _), ListS(a)) => ListV(Window(a, 0, a.len))
    case (FixedSizeList(_, _), ListS(a)) => ListV(Window(a, 0, a.len))
    case (Map(_, _), MapS(e)) =>
      if !e.buf.StructBuf? || |e.buf.kids| != 2 then NO_VALUE
      else MapV(Window(FieldOf(e, 0), 0, e.len), Window(FieldOf(e, 1), 0, e.len))
    case (Union(false, _, arms), SparseS(code, vs)) =>
      var k := ArmOf(t, code);
      if k < 0 || k >= |arms| || k >= |vs| then NO_VALUE else UnionV(code, ScalarValue(arms[k], vs[k]))
    case (Union(true, _, arms), DenseS(code, v)) =>
      var k := ArmOf(t, code);
      if k < 0 || k >= |arms| then NO_VALUE else UnionV(code, ScalarValue(arms[k], v))
    case _ => if s == NullS then Null else NO_VALUE
  }

  /** `s` is a non-null scalar whose type is `t`.  The arrays inside lists and maps may be malformed. */
  ghost predicate ScalarOf(t: Type, s: Scalar)
    decreases s
  {
    match t
    case Bool => s.BoolS?
    case Fixed(w) => s.FixedS? && |s.raw| == w
    case VarLen(_) => s.VarS?
    case Struct(ts) =>
      s.StructS? && |s.fields| == |ts| && forall k | 0 <= k < |ts| :: s.fields[k] == NullS || ScalarOf(ts[k], s.fields[k])
    case List(_, _) => s.ListS?
    case FixedSizeList(_, _) => s.ListS?
    case Map(_, _) => s.MapS? && s.entries.buf.StructBuf? && |s.entries.buf.kids| == 2
    case Union(false, _, arms) =>
      && s.SparseS? && |s.children| == |arms|
      && var k := ArmOf(t, s.code); 0 <= k < |arms| ==> ScalarOf(arms[k], s.children[k])
    case Union(true, _, arms) =>
      s.DenseS? && var k := ArmOf(t, s.code); 0 <= k < |arms| ==> ScalarOf(arms[k], s.child)
  }

  /** Every array the encoder walks is structurally valid. */
  predicate Checked(t: Type, s: Scalar)
    decreases s
  {
    match (t, s)
    case (Struct(ts), StructS(fs)) =>
      |fs| == |ts| && forall k | 0 <= k < |fs| :: fs[k] == NullS || Checked(ts[k], fs[k])
    case (List(_, e), ListS(a)) => SoundArray(e, a)
    case (FixedSizeList(_, e), ListS(a)) => SoundArray(e, a)
    case (Map(k, i), MapS(e)) => SoundArray(Struct([k, i]), e)
    case (Union(false, _, arms), SparseS(code, vs)) =>
      var k := ArmOf(t, code); k < 0 || k >= |arms| || k >= |vs| || Checked(arms[k], vs[k])
    case (Union(true, _, arms), DenseS(code, v)) =>
      var k := ArmOf(t, code); k < 0 || k >= |arms| || Checked(arms[k], v)
    case _ => true
  }

  /** What encoding a scalar does to the buffer. */
  ghost predicate WroteScalar(t: Type, s: Scalar, was: bytes, now: bytes, ok: bool)
  {
    var v := ScalarValue(t, s);
    (ok <==> Checked(t, s) && HasType(t, v)) && if ok then now == was + Encode(t, v) else was <= now
  }

  method EncodeScalarValue(w: WriteBuffer, s: Scalar, t: Type) returns (ok: bool)
    requires TypeOk(t) && ScalarOf(t, s)
    modifies w
    ensures WroteScalar(t, s, old(w.data), w.data, ok)
    decreases t, 1
  {
    hide ValueAt, At, Window, SoundArray, NullFlags, EncodeElems, EncodeFields, SlotsHaveType, SlotsHaveTypes, Layout;
    ghost var pre := w.data;
    match t {
      case Bool => w.Append([if s.b then 1 else 0]);
      case Fixed(_) => w.Append(s.raw);
      case VarLen(_) =>
        if |s.data| >= U32_LIMIT { return false; }
        w.AppendU32(|s.data|);
        w.Append(s.data);
        CodecLaws.Assoc(pre, U32(|s.data|), s.data);
      case Struct(_) =>
        ok := EncodeStructScalar(w, s, t);
        return;
      case List(_, e) =>
        WindowAt(s.values, 0, s.values.len);
        if !SoundArray(e, s.values) { return false; }
        if s.values.len >= U32_LIMIT { return false; }
        w.AppendU32(s.values.len);
        ok := EncodeElements(w, s.values, 0, s.values.len, e);
        ghost var vs := Window(s.values, 0, s.values.len);
        if ok { LayoutOf(pre, U32(s.values.len), NullFlags(vs), EncodeElems(e, vs)); }
        return;
      case FixedSizeList(n, e) =>
        WindowAt(s.values, 0, s.values.len);
        if !SoundArray(e, s.values) { return false; }
        if s.values.len != n { return false; }
        ok := EncodeElements(w, s.values, 0, n, e);
        ghost var vs := Window(s.values, 0, n);
        if ok { LayoutOf(pre, [], NullFlags(vs), EncodeElems(e, vs)); }
        return;
      case Map(k, i) =>
        if !SoundArray(Struct([k, i]), s.entries) { return false; }
        FieldIsSound([k, i], s.entries, 0);
        FieldIsSound([k, i], s.entries, 1);
        ok := EncodeEntries(w, FieldOf(s.entries, 0), FieldOf(s.entries, 1), 0, s.entries.len, t);
        return;
      case Union(dense, _, arms) =>
        ok := EncodeUnionScalar(w, s, t);
        return;
    }
    return true;
  }

  method EncodeUnionScalar(w: WriteBuffer, s: Scalar, t: Type) returns (ok: bool)
    requires TypeOk(t) && ScalarOf(t, s) && t.Union?
    modifies w
    ensures WroteScalar(t, s, old(w.data), w.data, ok)
    decreases t, 0
  {
    var k := ArmOf(t, s.code);
    if k < 0 { return false; }
    ghost var pre := w.data;
    var child := if t.dense then s.child else s.children[k];
    w.Append([s.code]);
    ok := EncodeScalarValue(w, child, t.arms[k]);
    if ok { CodecLaws.Assoc(pre, [s.code], Encode(t.arms[k], ScalarValue(t.arms[k], child))); }
  }

  lemma {:induction false} StructScalar(ts: seq<Type>, s: Scalar)
    requires ScalarOf(Struct(ts), s)
    ensures |s.fields| == |ts|
    ensures ScalarValue(Struct(ts), s) == StructV(FieldValues(ts, s.fields))
  {
  }

  function FieldValues(ts: seq<Type>, fs: seq<Scalar>): (r: seq<Value>)
    requires |ts| == |fs|
    ensures |r| == |fs|
  {
    seq(|fs|, k requires 0 <= k < |fs| => ScalarValue(ts[k], fs[k]))
  }

  lemma FieldScalar(ts: seq<Type>, fs: seq<Scalar>, k: nat)
    requires k < |ts| == |fs| && (fs[k] == NullS || ScalarOf(ts[k], fs[k]))
    ensures FieldValues(ts, fs)[k] == ScalarValue(ts[k], fs[k]) && (ScalarValue(ts[k], fs[k]) == Null <==> fs[k] == NullS)
  {
  }

  method EncodeStructScalar(w: WriteBuffer, s: Scalar, t: Type) returns (ok: bool)
    requires TypeOk(t) && ScalarOf(t, s) && t.Struct?
    modifies w
    ensures WroteScalar(t, s, old(w.data), w.data, ok)
    decreases t, 0
  {
    hide FlagsUpTo, NullFlags, Layout, EncodeFields, SlotsHaveTypes, HasType, Encode, ScalarValue;
    StructScalar(t.fields, s);
    var ts, fs := t.fields, s.fields;
    ghost var pre, vs := w.data, ScalarValue(t, s).fields;
    FlagsEnds(vs);
    var pos := w.BeginBits(|ts|);
    NoFields(ts, vs);
    for k := 0 to |ts|
      invariant SlotsHaveTypes(ts[..k], vs[..k]) && forall j | 0 <= j < k :: fs[j] == NullS || Checked(ts[j], fs[j])
      invariant w.data == Layout(pre, FlagsUpTo(vs, k), EncodeFields(ts[..k], vs[..k]))
    {
      ghost var payload := EncodeFields(ts[..k], vs[..k]);
      FieldsNext(ts, vs, k);
      FlagsStep(vs, k);
      FieldScalar(ts, fs, k);
      if fs[k] == NullS {
        w.SetNull(pos, k, pre, FlagsUpTo(vs, k), payload);
        assert payload + [] == payload;
      } else {
        ok := EncodeScalarValue(w, fs[k], ts[k]);
        if !ok {
          StructType(ts, vs);
          LayoutKeeps(pre, FlagsUpTo(vs, k), payload);
          return;
        }
        LayoutAppend(pre, FlagsUpTo(vs, k), payload, Encode(ts[k], vs[k]));
      }
    }
    assert ts[..|ts|] == ts && vs[..|ts|] == vs;
    StructType(ts, vs);
    LayoutOf(pre, [], NullFlags(vs), EncodeFields(ts, vs));
    return true;
  }

  // ----- the two encoders agree -----

  /** `Array::Slice`. */
  function Range(a: Arr, s: nat, z: nat): Arr { Arr(a.off + s, if s <= z then z - s else 0, a.buf) }

  lemma RangeWindow(a: Arr, s: nat, z: nat)
    requires s <= z
    ensures Window(Range(a, s, z), 0, z - s) == Window(a, s, z)
  {
    hide ValueAt;
    forall j | 0 <= j < z - s
      ensures At(Range(a, s, z), j) == At(a, s + j)
    {
      assert Range(a, s, z).off + j == a.off + (s + j);
    }
    WindowAt(Range(a, s, z), 0, z - s);
    WindowAt(a, s, z);
  }

  lemma {:induction false} RangeSound(t: Type, a: Arr, s: nat, z: nat)
    requires SoundArray(t, a) && s <= z <= a.len
    ensures SoundArray(t, Range(a, s, z))
  {
    hide Sound;
  }

  /** The entries of a map slot: a window over a struct of the two child columns. */
  function Entries(keys: Arr, items: Arr, s: nat, z: nat): Arr
  {
    Arr(s, if s <= z then z - s else 0, StructBuf(seq(z, _ => true), [keys, items]))
  }

  /** `Array::GetScalar`. */
  function ScalarAt(t: Type, a: Arr, i: nat): Scalar
    decreases t
  {
    var j := a.off + i;
    if SlotIsNull(a, i) then NullS
    else match (t, a.buf)
      case (Bool, BoolBuf(_, bits)) => BoolS(Nth(bits, j, false))
      case (Fixed(w), FixedBuf(_, _, raw)) => FixedS(Slice(raw, j * w, j * w + w))
      case (VarLen(_), VarBuf(_, starts, data)) => VarS(Slice(data, Nth(starts, j, 0), SlotEnd(starts, j, |data|)))
      case (Struct(ts), StructBuf(_, kids)) =>
        if |kids| != |ts| then NullS
        else StructS(seq(|ts|, k requires 0 <= k < |ts| => ScalarAt(ts[k], FieldOf(a, k), i)))
      case (List(_, _), ListBuf(_, starts, kid)) => ListS(Range(kid, Nth(starts, j, 0), SlotEnd(starts, j, kid.len)))
      case (FixedSizeList(n, _), FslBuf(_, _, kid)) => ListS(Range(kid, j * n, j * n + n))
      case (Map(_, _), MapBuf(_, starts, keys, items)) =>
        MapS(Entries(keys, items, Nth(starts, j, 0), SlotEnd(starts, j, items.len)))
      case (Union(dense, codes, arms), UnionBuf(_, _, ids, _, kids)) =>
        var code := Nth(ids, j, 0);
        var k := ChildId(codes, code);
        if k < 0 || k >= |arms| || |kids| != |arms| then NullS
        else if dense then DenseS(code, ScalarAt(arms[k], kids[k], ArmIndex(a, i)))
        else SparseS(code, seq(|arms|, m requires 0 <= m < |arms| => ScalarAt(arms[m], kids[m], j)))
      case _ => NullS
  }

  /** A scalar stands for the slot: it has the slot's type and value, and its arrays are sound. */
  ghost predicate StandsFor(t: Type, s: Scalar, v: Value)
  {
    ScalarOf(t, s) && Checked(t, s) && ScalarValue(t, s) == v
  }

  /** A scalar taken from an array stands for the slot it was taken from. */
  lemma {:induction false} ScalarAtValue(t: Type, a: Arr, i: nat)
    requires SoundArray(t, a) && i < a.len && TypeOk(t) && At(a, i) != Null
    ensures StandsFor(t, ScalarAt(t, a, i), At(a, i))
    decreases t, 1
  {
    hide ValueAt, At, SoundArray, ScalarAt, StandsFor;
    match t
    case Struct(ts) => StructAtValue(ts, a, i);
    case Map(k, v) => MapAtValue(k, v, a, i);
    case Union(_, codes, arms) =>
      UnionSlot(t, a, i);
      var k := ChildId(codes, a.buf.ids[a.off + i]);
      ScalarAtValue(arms[k], a.buf.kids[k], ArmIndex(a, i));
      UnionAtValue(t, a, i);
    case _ => SimpleAtValue(t, a, i);
  }

  lemma {:induction false} UnionAtValue(t: Type, a: Arr, i: nat)
    requires t.Union? && TypeOk(t) && SoundArray(t, a) && i < a.len && At(a, i) != Null
    requires a.buf.UnionBuf? && a.off + i < |a.buf.ids| && |a.buf.kids| == |t.arms|
    requires var k := ChildId(t.codes, a.buf.ids[a.off + i]);
             0 <= k < |t.arms| && StandsFor(t.arms[k], ScalarAt(t.arms[k], a.buf.kids[k], ArmIndex(a, i)),
                                            At(a.buf.kids[k], ArmIndex(a, i)))
    ensures StandsFor(t, ScalarAt(t, a, i), At(a, i))
  {
    UnionScalar(t, a, i);
    hide ValueAt, At, SoundArray, ScalarAt;
    UnionSlot(t, a, i);
    var code := a.buf.ids[a.off + i];
    UnionStands(t, ScalarAt(t, a, i), code, ChildId(t.codes, code), At(a.buf.kids[ChildId(t.codes, code)], ArmIndex(a, i)));
  }

  /** The scalar that stands in the chosen arm. */
  function ArmScalar(t: Type, s: Scalar, k: nat): Scalar
  {
    if s.DenseS? then s.child else if s.SparseS? && k < |s.children| then s.children[k] else NullS
  }

  lemma {:induction false} UnionScalar(t: Type, a: Arr, i: nat)
    requires t.Union? && a.buf.UnionBuf? && At(a, i) != Null && a.off + i < |a.buf.ids| && |a.buf.kids| == |t.arms|
    requires 0 <= ChildId(t.codes, a.buf.ids[a.off + i]) < |t.arms| && a.buf.dense == t.dense
    ensures var s, k := ScalarAt(t, a, i), ChildId(t.codes, a.buf.ids[a.off + i]);
            && (if t.dense then s.DenseS? else s.SparseS? && |s.children| == |t.arms|)
            && s.code == a.buf.ids[a.off + i] && ArmScalar(t, s, k) == ScalarAt(t.arms[k], a.buf.kids[k], ArmIndex(a, i))
  {
    hide ValueAt, At, ChildId;
  }

  lemma {:induction false} UnionStands(t: Type, s: Scalar, code: nat, k: int, v: Value)
    requires t.Union? && code < 128 && k == ChildId(t.codes, code) && 0 <= k < |t.arms| && v != Null
    requires (if t.dense then s.DenseS? else s.SparseS? && |s.children| == |t.arms|) && s.code == code
    requires StandsFor(t.arms[k], ArmScalar(t, s, k), v)
    ensures StandsFor(t, s, UnionV(code, v))
  {
    hide ChildId;
  }

  lemma {:induction false} SimpleAtValue(t: Type, a: Arr, i: nat)
    requires SoundArray(t, a) && i < a.len && At(a, i) != Null
    requires t.Bool? || t.Fixed? || t.VarLen? || t.List? || t.FixedSizeList?
    ensures StandsFor(t, ScalarAt(t, a, i), At(a, i))
  {
    hide ValueAt, At, SoundArray, Window, ScalarAt, StandsFor;
    match t
    case List(large, e) => ListAtValue(t, a, i);
    case FixedSizeList(n, e) => ListAtValue(t, a, i);
    case _ => LeafAtValue(t, a, i);
  }

  lemma {:induction false} LeafAtValue(t: Type, a: Arr, i: nat)
    requires SoundArray(t, a) && i < a.len && At(a, i) != Null && (t.Bool? || t.Fixed? || t.VarLen?)
    ensures StandsFor(t, ScalarAt(t, a, i), At(a, i))
  {
    hide ValueAt, At, SoundArray;
    match t
    case Bool => BoolSlot(a, i);
    case Fixed(w) => FixedAtValue(w, a, i);
    case VarLen(b) => VarSlot(b, a, i);
  }

  lemma {:induction false} FixedAtValue(w: nat, a: Arr, i: nat)
    requires SoundArray(Fixed(w), a) && i < a.len && At(a, i) != Null
    ensures StandsFor(Fixed(w), ScalarAt(Fixed(w), a, i), At(a, i))
  {
    FixedSlot(w, a, i);
    FixedScalar(w, a, i);
    hide ValueAt, At, SoundArray, ScalarAt;
    FixedStands(w, a.buf.raw, (a.off + i) * w);
  }

  lemma {:induction false} FixedScalar(w: nat, a: Arr, i: nat)
    requires a.buf.FixedBuf? && At(a, i) != Null
    ensures ScalarAt(Fixed(w), a, i) == FixedS(Slice(a.buf.raw, (a.off + i) * w, (a.off + i) * w + w))
  {
    hide ValueAt, At, Slice;
  }

  lemma FixedStands(w: nat, raw: bytes, p: nat)
    requires p + w <= |raw|
    ensures StandsFor(Fixed(w), FixedS(Slice(raw, p, p + w)), FixedV(raw[p..p + w]))
  {
  }

  lemma {:induction false} ListAtValue(t: Type, a: Arr, i: nat)
    requires SoundArray(t, a) && i < a.len && At(a, i) != Null && (t.List? || t.FixedSizeList?)
    ensures StandsFor(t, ScalarAt(t, a, i), At(a, i))
  {
    hide ValueAt, At, SoundArray, Window;
    match t
    case List(large, e) =>
      ListSlot(large, e, a, i);
      RangeWindow(a.buf.kid, a.buf.starts[a.off + i], SlotEnd(a.buf.starts, a.off + i, a.buf.kid.len));
      RangeSound(e, a.buf.kid, a.buf.starts[a.off + i], SlotEnd(a.buf.starts, a.off + i, a.buf.kid.len));
    case FixedSizeList(n, e) =>
      FslSlot(n, e, a, i);
      RangeWindow(a.buf.kid, (a.off + i) * n, (a.off + i) * n + n);
      RangeSound(e, a.buf.kid, (a.off + i) * n, (a.off + i) * n + n);
  }

  lemma {:induction false} StructAtValue(ts: seq<Type>, a: Arr, i: nat)
    requires SoundArray(Struct(ts), a) && i < a.len && TypesOk(ts) && At(a, i) != Null
    ensures StandsFor(Struct(ts), ScalarAt(Struct(ts), a, i), At(a, i))
    decreases Struct(ts), 0
  {
    hide ValueAt, At, SoundArray;
    StructSlot(ts, a, i);
    var fs, vs := ScalarAt(Struct(ts), a, i).fields, At(a, i).fields;
    forall k | 0 <= k < |ts|
      ensures fs[k] == NullS || (ScalarOf(ts[k], fs[k]) && Checked(ts[k], fs[k]))
      ensures ScalarValue(ts[k], fs[k]) == vs[k]
    {
      assert fs[k] == ScalarAt(ts[k], FieldOf(a, k), i);
      FieldIsSound(ts, a, k);
      FieldAt(a, k, i);
      if !SlotIsNull(FieldOf(a, k), i) { ScalarAtValue(ts[k], FieldOf(a, k), i); }
    }
    assert FieldValues(ts, fs) == vs;
  }

  lemma {:induction false} MapAtValue(k: Type, v: Type, a: Arr, i: nat)
    requires SoundArray(Map(k, v), a) && i < a.len && At(a, i) != Null
    ensures StandsFor(Map(k, v), ScalarAt(Map(k, v), a, i), At(a, i))
  {
    hide ValueAt, At, Window, SoundArray;
    MapSlot(k, v, a, i);
    var s, z := a.buf.starts[a.off + i], SlotEnd(a.buf.starts, a.off + i, a.buf.items.len);
    EntriesSound(k, v, a.buf.keys, a.buf.items, s, z);
    RangeWindow(a.buf.keys, s, z);
    RangeWindow(a.buf.items, s, z);
  }

  lemma {:induction false} EntriesSound(k: Type, v: Type, keys: Arr, items: Arr, s: nat, z: nat)
    requires SoundArray(k, keys) && SoundArray(v, items) && s <= z <= keys.len && z <= items.len
    ensures SoundArray(Struct([k, v]), Entries(keys, items, s, z))
    ensures FieldOf(Entries(keys, items, s, z), 0) == Range(keys, s, z)
    ensures FieldOf(Entries(keys, items, s, z), 1) == Range(items, s, z)
  {
  }

  /** For every array, window and index, the element encoder and the scalar encoder accept the same
      values and write the same bytes. */
  lemma {:induction false} EncodersAgree(t: Type, a: Arr, i: nat, was: bytes, x: bytes, okx: bool, y: bytes, oky: bool)
    requires SoundArray(t, a) && i < a.len && TypeOk(t) && At(a, i) != Null
    requires Wrote(t, At(a, i), was, x, okx) && WroteScalar(t, ScalarAt(t, a, i), was, y, oky)
    ensures okx == oky && (okx ==> x == y)
  {
    hide ValueAt, SoundArray, HasType, Encode, ScalarAt;
    ScalarAtValue(t, a, i);
  }

  // ----- rows -----

  /** A field's declared type.  A dictionary is sent as its value type. */
  datatype FieldType = Plain(t: Type) | Dictionary(index: nat, value: Type)

  function WireType(f: FieldType): Type
  {
    match f
    case Plain(t) => t
    case Dictionary(_, v) => v
  }

  function WireTypes(schema: seq<FieldType>): (r: seq<Type>)
    ensures |r| == |schema|
  {
    seq(|schema|, k requires 0 <= k < |schema| => WireType(schema[k]))
  }

  /** One supplied cell: absent or null, a plain scalar, or an index into a dictionary. */
  datatype Cell =
    | Missing
    | Supplied(of: Type, s: Scalar)
    | Indexed(index: nat, of: Type, at: int, entries: Arr)

  function CellType(c: Cell): FieldType
    requires !c.Missing?
  {
    if c.Supplied? then Plain(c.of) else Dictionary(c.index, c.of)
  }

  /** The types agree, or the field is a dictionary and the value types do. */
  predicate Matches(f: FieldType, c: Cell)
  {
    c.Missing? || f == CellType(c) || (f.Dictionary? && f.value == c.of)
  }

  /** The values of a dictionary must be scalars. */
  predicate Supported(f: FieldType) { f.Dictionary? ==> f.value.Bool? || f.value.Fixed? || f.value.VarLen? }

  /** Arrow's own invariants on a cell. */
  ghost predicate CellOk(c: Cell)
  {
    match c
    case Missing => true
    case Supplied(t, s) => TypeOk(t) && ScalarOf(t, s)
    case Indexed(_, t, _, entries) => TypeOk(t) && SoundArray(t, entries)
  }

  /** The value a cell stands for, dictionary entries resolved. */
  function CellValue(c: Cell): Value
  {
    match c
    case Missing => Null
    case Supplied(t, s) => ScalarValue(t, s)
    case Indexed(_, t, at, entries) =>
      if 0 <= at < entries.len && !SlotIsNull(entries, at) then At(entries, at) else NO_VALUE
  }

  function CellValues(cells: seq<Cell>): (r: seq<Value>)
    ensures |r| == |cells|
  {
    seq(|cells|, k requires 0 <= k < |cells| => CellValue(cells[k]))
  }

  /** The cell can be encoded: right type, sound arrays, a value the format can carry. */
  ghost predicate CellFits(f: FieldType, c: Cell)
  {
    && Matches(f, c) && (c.Missing? || Supported(f))
    && (c.Supplied? ==> Checked(c.of, c.s)) && SlotHasType(WireType(f), CellValue(c))
  }

  method EncodeCell(w: WriteBuffer, f: FieldType, c: Cell) returns (ok: bool)
    requires CellOk(c) && !c.Missing? && Matches(f, c)
    modifies w
    ensures ok <==> Supported(f) && (c.Supplied? ==> Checked(c.of, c.s)) && HasType(c.of, CellValue(c))
    ensures if ok then w.data == old(w.data) + Encode(c.of, CellValue(c)) else old(w.data) <= w.data
  {
    hide ValueAt, At, SoundArray;
    if !Supported(f) { return false; }
    match c {
      case Supplied(t, s) => ok := EncodeScalarValue(w, s, t);
      case Indexed(_, t, at, entries) =>
        if !(0 <= at < entries.len) || SlotIsNull(entries, at) { return false; }
        ok := EncodeElement(w, entries, at, t);
    }
  }

  /** What encoding a row does to the buffer. */
  ghost predicate WroteRow(schema: seq<FieldType>, cells: seq<Cell>, was: bytes, now: bytes, ok: bool)
  {
    && (ok <==> |cells| == |schema| && forall k | 0 <= k < |cells| :: CellFits(schema[k], cells[k]))
    && if ok then
         var ts, vs := WireTypes(schema), CellValues(cells);
         HasType(Struct(ts), StructV(vs)) && now == was + CodecSpec.EncodeRow(ts, vs)
       else was <= now
  }

  /** Encodes a row after the bytes already in the buffer. */
  method EncodeRowInto(w: WriteBuffer, schema: seq<FieldType>, cells: seq<Cell>) returns (ok: bool)
    requires forall k | 0 <= k < |cells| :: CellOk(cells[k])
    modifies w
    ensures WroteRow(schema, cells, old(w.data), w.data, ok)
  {
    hide FlagsUpTo, NullFlags, Layout, EncodeFields, SlotsHaveTypes, HasType, Encode, CellValue, CellOk, Checked, Supported;
    if |cells| != |schema| { return false; }
    ghost var pre, ts, vs := w.data, WireTypes(schema), CellValues(cells);
    FlagsEnds(vs);
    var pos := w.BeginBits(|schema|);
    NoFields(ts, vs);
    for k := 0 to |schema|
      invariant SlotsHaveTypes(ts[..k], vs[..k]) && forall j | 0 <= j < k :: CellFits(schema[j], cells[j])
      invariant w.data == Layout(pre, FlagsUpTo(vs, k), EncodeFields(ts[..k], vs[..k]))
    {
      ghost var payload := EncodeFields(ts[..k], vs[..k]);
      FieldsNext(ts, vs, k);
      FlagsStep(vs, k);
      CellNull(cells[k]);
      if Matches(schema[k], cells[k]) && !cells[k].Missing? { MatchedType(schema[k], cells[k]); }
      if cells[k].Missing? {
        w.SetNull(pos, k, pre, FlagsUpTo(vs, k), payload);
        assert payload + [] == payload;
      } else {
        ok := Matches(schema[k], cells[k]);
        if ok { ok := EncodeCell(w, schema[k], cells[k]); }
        if !ok {
          LayoutKeeps(pre, FlagsUpTo(vs, k), payload);
          return;
        }
        LayoutAppend(pre, FlagsUpTo(vs, k), payload, Encode(ts[k], vs[k]));
      }
    }
    assert ts[..|ts|] == ts && vs[..|ts|] == vs;
    StructType(ts, vs);
    LayoutOf(pre, [], NullFlags(vs), EncodeFields(ts, vs));
    return true;
  }

  lemma CellNull(c: Cell)
    requires CellOk(c)
    ensures CellValue(c) == Null <==> c.Missing?
  {
  }

  lemma MatchedType(f: FieldType, c: Cell)
    requires Matches(f, c) && !c.Missing?
    ensures WireType(f) == c.of
  {
  }

  /** `v` is what the cell says: nothing, its own scalar, or the dictionary entry at its index. */
  ghost predicate Resolved(c: Cell, v: Value)
  {
    match c
    case Missing => v == Null
    case Supplied(t, s) => v == ScalarValue(t, s)
    case Indexed(_, _, at, entries) => 0 <= at < entries.len && v == At(entries, at) && v != Null
  }

  lemma {:induction false} FitMeansResolved(f: FieldType, c: Cell)
    requires CellFits(f, c)
    ensures Resolved(c, CellValue(c))
  {
    hide At, ScalarValue, Checked;
    NoTypeForNothing(WireType(f));
  }

  lemma {:induction false} NoTypeForNothing(t: Type)
    ensures !SlotHasType(t, NO_VALUE)
  {
  }

  /** A dictionary cell is sent as the scalar that its index names: with that scalar in its place the row
      is accepted or refused alike and gives the same bytes. */
  lemma {:induction false} IndexIsResolved(schema: seq<FieldType>, cells: seq<Cell>, k: nat, was: bytes, x: bytes, okx: bool, y: bytes, oky: bool)
    requires k < |cells| && cells[k].Indexed? && CellOk(cells[k]) && (k < |schema| ==> schema[k].Dictionary?)
    requires 0 <= cells[k].at < cells[k].entries.len && At(cells[k].entries, cells[k].at) != Null
    requires WroteRow(schema, cells, was, x, okx)
    requires var c := cells[k]; WroteRow(schema, cells[k := Supplied(c.of, ScalarAt(c.of, c.entries, c.at))], was, y, oky)
    ensures okx == oky && (okx ==> x == y)
  {
    var c := cells[k];
    var c' := Supplied(c.of, ScalarAt(c.of, c.entries, c.at));
    ScalarAtValue(c.of, c.entries, c.at);
    SameCell(c, c');
    hide HasType, CellValue, CodecSpec.EncodeRow, ScalarAt, At, StandsFor, CellOk, CellFits, WireType;
    assert CellValues(cells[k := c']) == CellValues(cells);
    if k < |schema| { SameFit(schema[k], c, c'); }
    assert |cells| == |schema| ==> forall j | 0 <= j < |cells| :: j != k ==> cells[k := c'][j] == cells[j];
  }

  lemma {:induction false} SameCell(c: Cell, c': Cell)
    requires c.Indexed? && c'.Supplied? && c'.of == c.of && 0 <= c.at < c.entries.len && At(c.entries, c.at) != Null
    requires StandsFor(c.of, c'.s, At(c.entries, c.at))
    ensures CellValue(c') == CellValue(c) == At(c.entries, c.at)
  {
    hide At, ScalarValue, Checked, ScalarOf;
  }

  lemma {:induction false} SameFit(f: FieldType, c: Cell, c': Cell)
    requires c.Indexed? && c'.Supplied? && c'.of == c.of && f.Dictionary? && CellValue(c') == CellValue(c) && Checked(c'.of, c'.s)
    ensures CellFits(f, c') <==> CellFits(f, c)
  {
    hide CellValue, Checked, HasType;
  }

  /** An index that is out of range, or at a null entry, is refused. */
  lemma {:induction false} BadIndexIsRefused(schema: seq<FieldType>, cells: seq<Cell>, k: nat, was: bytes, x: bytes, ok: bool)
    requires WroteRow(schema, cells, was, x, ok) && k < |cells| && cells[k].Indexed?
    requires !(0 <= cells[k].at < cells[k].entries.len) || At(cells[k].entries, cells[k].at) == Null
    ensures !ok
  {
    if k < |schema| && CellFits(schema[k], cells[k]) { FitMeansResolved(schema[k], cells[k]); }
    hide CellFits, HasType, CodecSpec.EncodeRow, CellValue, At;
  }

  /** Decoding what was encoded gives the cells back, dictionary entries resolved to their values. */
  lemma EncodedRowDecodes(schema: seq<FieldType>, cells: seq<Cell>)
    requires |cells| == |schema| && forall k | 0 <= k < |cells| :: CellFits(schema[k], cells[k])
    requires CodecRows.MapKeysTakeBytes(Struct(WireTypes(schema)))
    ensures var ts, vs := WireTypes(schema), CellValues(cells);
            HasType(Struct(ts), StructV(vs)) && DecodeRow(ts, CodecSpec.EncodeRow(ts, vs)) == Ok(vs, [])
    ensures forall k | 0 <= k < |cells| :: Resolved(cells[k], CellValues(cells)[k])
  {
    forall k | 0 <= k < |cells|
      ensures Resolved(cells[k], CellValues(cells)[k])
    {
      assert CellFits(schema[k], cells[k]);
      FitMeansResolved(schema[k], cells[k]);
    }
    hide Decode, Encode, CellValue, Matches, Checked, WireType, Supported, Resolved;
    var ts, vs := WireTypes(schema), CellValues(cells);
    assert SlotsHaveTypes(ts, vs) by {
      forall k | 0 <= k < |vs|
        ensures SlotHasType(ts[k], vs[k])
      {
        assert CellFits(schema[k], cells[k]);
      }
    }
    CodecRows.RowRoundTrip(ts, vs);
  }
}
