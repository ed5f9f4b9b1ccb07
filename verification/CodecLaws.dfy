/** What the row format promises, for every type: decoding does not depend on what follows the
    value, and printing and parsing undo each other exactly when every map fits its guard. */
module CodecLaws {
  import opened Wire
  import opened RowTypes
  import opened CodecSpec

  // ----- parsing reads a prefix and never looks past it -----

  ghost predicate Suffix(r: bytes, s: bytes) {
    |r| <= |s| && s[|s| - |r|..] == r
  }

  ghost predicate Leaves<T>(d: Decoded<T>, s: bytes) {
    d.Ok? ==> Suffix(d.rest, s)
  }

  lemma SuffixTrans(a: bytes, b: bytes, c: bytes)
    requires Suffix(a, b) && Suffix(b, c)
    ensures Suffix(a, c)
  {
  }

  lemma TakeLeaves(s: bytes)
    ensures forall n: nat :: Leaves(Take(s, n), s)
    ensures Leaves(TakeU32(s), s)
  {
  }

  /** The parsers only ever drop a prefix of their input. */
  lemma {:induction false} DecodeConsumes(t: Type, s: bytes)
    ensures Leaves(Decode(t, s), s)
    decreases t, 0
  {
    hide Suffix;
    TakeLeaves(s);
    match t
    case Bool =>
    case Fixed(w) =>
    case VarLen(_) =>
      var c := TakeU32(s);
      if c.Ok? {
        TakeLeaves(c.rest);
        Chain(Take(c.rest, c.val), c.rest, s);
      }
    case Struct(ts) =>
      var b := Take(s, BitfieldBytes(|ts|));
      if b.Ok? {
        FieldsConsume(ts, Flags(b.val, |ts|), b.rest);
        Chain(DecodeFields(ts, Flags(b.val, |ts|), b.rest), b.rest, s);
      }
    case List(_, e) =>
      var c := TakeU32(s);
      if c.Ok? {
        ListConsumes(e, c.val, c.rest);
        Chain(DecodeList(e, c.val, c.rest), c.rest, s);
      }
    case FixedSizeList(n, e) => ListConsumes(e, n, s);
    case Map(k, i) =>
      var c := TakeU32(s);
      if c.Ok? {
        var ks := DecodeElems(k, seq(c.val, _ => false), c.rest);
        ElemsConsume(k, seq(c.val, _ => false), c.rest);
        Chain(ks, c.rest, s);
        if ks.Ok? {
          ListConsumes(i, c.val, ks.rest);
          Chain(DecodeList(i, c.val, ks.rest), ks.rest, s);
        }
      }
    case Union(_, codes, arms) =>
      var b := Take(s, 1);
      if b.Ok? && b.val[0] < 128 {
        var arm := ChildId(codes, b.val[0]);
        if 0 <= arm < |arms| {
          DecodeConsumes(arms[arm], b.rest);
          Chain(Decode(arms[arm], b.rest), b.rest, s);
        }
      }
  }

  lemma Chain<T>(d: Decoded<T>, r: bytes, s: bytes)
    requires Leaves(d, r) && Suffix(r, s)
    ensures Leaves(d, s)
  {
    if d.Ok? { SuffixTrans(d.rest, r, s); }
  }

  lemma {:induction false} ListConsumes(t: Type, n: nat, s: bytes)
    ensures Leaves(DecodeList(t, n, s), s)
    decreases t, 3
  {
    hide Suffix;
    TakeLeaves(s);
    var b := Take(s, BitfieldBytes(n));
    if b.Ok? {
      ElemsConsume(t, Flags(b.val, n), b.rest);
      Chain(DecodeElems(t, Flags(b.val, n), b.rest), b.rest, s);
    }
  }

  lemma {:induction false} SlotConsumes(t: Type, isNull: bool, s: bytes)
    ensures Leaves(DecodeSlot(t, isNull, s), s)
    decreases t, 1
  {
    if !isNull { DecodeConsumes(t, s); }
  }

  lemma {:induction false} ElemsConsume(t: Type, nulls: seq<bool>, s: bytes)
    ensures Leaves(DecodeElems(t, nulls, s), s)
    decreases t, 2, |nulls|
  {
    hide Decode;
    if nulls != [] {
      var d := DecodeSlot(t, nulls[0], s);
      SlotConsumes(t, nulls[0], s);
      if d.Ok? {
        ElemsConsume(t, nulls[1..], d.rest);
        Chain(DecodeElems(t, nulls[1..], d.rest), d.rest, s);
      }
    }
  }

  lemma {:induction false} FieldsConsume(ts: seq<Type>, nulls: seq<bool>, s: bytes)
    requires |ts| == |nulls|
    ensures Leaves(DecodeFields(ts, nulls, s), s)
    decreases ts, 0
  {
    hide Decode;
    if ts != [] {
      var d := DecodeSlot(ts[0], nulls[0], s);
      SlotConsumes(ts[0], nulls[0], s);
      if d.Ok? {
        FieldsConsume(ts[1..], nulls[1..], d.rest);
        Chain(DecodeFields(ts[1..], nulls[1..], d.rest), d.rest, s);
      }
    }
  }

  function Extend<T>(d: Decoded<T>, x: bytes): Decoded<T>
  {
    match d
    case Err => Err
    case Ok(v, r) => Ok(v, r + x)
  }

  lemma TakeStable(s: bytes, n: nat, x: bytes)
    requires n <= |s|
    ensures Take(s + x, n) == Extend(Take(s, n), x)
  {
    assert (s + x)[..n] == s[..n] && (s + x)[n..] == s[n..] + x;
  }

  lemma TakeU32Stable(s: bytes, x: bytes)
    requires |s| >= 4
    ensures TakeU32(s + x) == Extend(TakeU32(s), x)
  {
    assert (s + x)[4..] == s[4..] + x;
  }

  /** A successful parse stays the same parse when bytes are appended, although the list, map and
      run guards all look at the number of bytes left. */
  lemma {:induction false} DecodeStable(t: Type, s: bytes, x: bytes)
    requires Decode(t, s).Ok?
    ensures Decode(t, s + x) == Extend(Decode(t, s), x)
    decreases t, 0
  {
    hide DecodeElems, DecodeFields, DecodeList, Flags;
    match t
    case Bool => TakeStable(s, 1, x);
    case Fixed(w) => TakeStable(s, w, x);
    case VarLen(_) =>
      TakeU32Stable(s, x);
      TakeStable(s[4..], TakeU32(s).val, x);
    case Struct(ts) =>
      var b := Take(s, BitfieldBytes(|ts|));
      TakeStable(s, BitfieldBytes(|ts|), x);
      FieldsStable(ts, Flags(b.val, |ts|), b.rest, x);
    case List(_, e) =>
      TakeU32Stable(s, x);
      ListStable(e, TakeU32(s).val, s[4..], x);
    case FixedSizeList(n, e) => ListStable(e, n, s, x);
    case Map(k, i) =>
      TakeU32Stable(s, x);
      var n := TakeU32(s).val;
      var nulls := seq(n, _ => false);
      ElemsStable(k, nulls, s[4..], x);
      ListStable(i, n, DecodeElems(k, nulls, s[4..]).rest, x);
    case Union(_, codes, arms) =>
      TakeStable(s, 1, x);
      DecodeStable(arms[ChildId(codes, s[0])], s[1..], x);
  }

  lemma {:induction false} ListStable(t: Type, n: nat, s: bytes, x: bytes)
    requires DecodeList(t, n, s).Ok?
    ensures DecodeList(t, n, s + x) == Extend(DecodeList(t, n, s), x)
    decreases t, 3
  {
    var b := Take(s, BitfieldBytes(n));
    TakeStable(s, BitfieldBytes(n), x);
    ElemsStable(t, Flags(b.val, n), b.rest, x);
  }

  lemma {:induction false} SlotStable(t: Type, isNull: bool, s: bytes, x: bytes)
    requires DecodeSlot(t, isNull, s).Ok?
    ensures DecodeSlot(t, isNull, s + x) == Extend(DecodeSlot(t, isNull, s), x)
    decreases t, 1
  {
    if !isNull { DecodeStable(t, s, x); }
  }

  lemma {:induction false} ElemsStable(t: Type, nulls: seq<bool>, s: bytes, x: bytes)
    requires DecodeElems(t, nulls, s).Ok?
    ensures DecodeElems(t, nulls, s + x) == Extend(DecodeElems(t, nulls, s), x)
    decreases t, 2, |nulls|
  {
    hide Decode;
    if nulls != [] {
      SlotStable(t, nulls[0], s, x);
      ElemsStable(t, nulls[1..], DecodeSlot(t, nulls[0], s).rest, x);
    }
  }

  lemma {:induction false} FieldsStable(ts: seq<Type>, nulls: seq<bool>, s: bytes, x: bytes)
    requires |ts| == |nulls| && DecodeFields(ts, nulls, s).Ok?
    ensures DecodeFields(ts, nulls, s + x) == Extend(DecodeFields(ts, nulls, s), x)
    decreases ts, 0
  {
    hide Decode;
    if ts != [] {
      SlotStable(ts[0], nulls[0], s, x);
      FieldsStable(ts[1..], nulls[1..], DecodeSlot(ts[0], nulls[0], s).rest, x);
    }
  }

  /** Rows are prefix free: an accepted row rejects every strict extension and every strict truncation. */
  lemma RowsArePrefixFree(schema: seq<Type>, s: bytes, x: bytes)
    requires DecodeRow(schema, s).Ok? && x != []
    ensures DecodeRow(schema, s + x).Err?
    ensures forall k | 0 <= k < |s| :: DecodeRow(schema, s[..k]).Err?
  {
    DecodeStable(Struct(schema), s, x);
    forall k | 0 <= k < |s|
      ensures DecodeRow(schema, s[..k]).Err?
    {
      assert s[..k] + s[k..] == s;
      if DecodeRow(schema, s[..k]).Ok? {
        DecodeStable(Struct(schema), s[..k], s[k..]);
      }
    }
  }

  // ----- parsing undoes printing -----

  /** Each map announces no more entries than there are bytes after its count, `rest` of them
      following the value itself. */
  ghost predicate Fits(t: Type, v: Value, rest: nat)
    requires HasType(t, v)
    decreases t, 0
  {
    match t
    case Bool => true
    case Fixed(_) => true
    case VarLen(_) => true
    case Struct(ts) => FieldsFit(ts, v.fields, rest)
    case List(_, e) => ElemsFit(e, v.elems, rest)
    case FixedSizeList(_, e) => ElemsFit(e, v.elems, rest)
    case Map(k, i) =>
      var tail := |EncodeElems(i, v.items)| + rest;
      var body := BitfieldBytes(|v.items|) + tail;
      && |v.keys| <= |EncodeElems(k, v.keys)| + body
      && ElemsFit(k, v.keys, body) && ElemsFit(i, v.items, rest)
    case Union(_, codes, arms) => Fits(arms[ChildId(codes, v.code)], v.arm, rest)
  }

  ghost predicate SlotFits(t: Type, v: Value, rest: nat)
    requires SlotHasType(t, v)
    decreases t, 1
  {
    v == Null || Fits(t, v, rest)
  }

  ghost predicate ElemsFit(t: Type, vs: seq<Value>, rest: nat)
    requires SlotsHaveType(t, vs)
    decreases t, 2, |vs|
  {
    vs != [] ==> SlotFits(t, vs[0], |EncodeElems(t, vs[1..])| + rest) && ElemsFit(t, vs[1..], rest)
  }

  ghost predicate FieldsFit(ts: seq<Type>, vs: seq<Value>, rest: nat)
    requires |ts| == |vs| && SlotsHaveTypes(ts, vs)
    decreases ts, 0
  {
    ts != [] ==>
      SlotFits(ts[0], vs[0], |EncodeFields(ts[1..], vs[1..])| + rest) && FieldsFit(ts[1..], vs[1..], rest)
  }

  function When<T>(c: bool, v: T, r: bytes): Decoded<T> { if c then Ok(v, r) else Err }

  lemma TakeOf(a: bytes, s: bytes)
    ensures Take(a + s, |a|) == Ok(a, s)
  {
    assert (a + s)[..|a|] == a && (a + s)[|a|..] == s;
  }

  lemma Assoc(a: bytes, b: bytes, c: bytes)
    ensures a + b + c == a + (b + c)
  {
  }

  lemma SlotsSplit(vs: seq<Value>)
    requires vs != []
    ensures NullFlags(vs)[1..] == NullFlags(vs[1..]) && [vs[0]] + vs[1..] == vs
  {
  }

  /** Printing, then parsing with any bytes behind it, gives the value back and stops at those
      bytes -- exactly when every map fits its guard; otherwise the parser refuses. */
  lemma {:induction false} RoundTrip(t: Type, v: Value, s: bytes)
    requires HasType(t, v)
    ensures Decode(t, Encode(t, v) + s) == When(Fits(t, v, |s|), v, s)
    decreases t, 1
  {
    match t
    case Bool => TakeOf(Encode(t, v), s);
    case Fixed(_) => TakeOf(v.raw, s);
    case VarLen(_) =>
      Assoc(U32(|v.data|), v.data, s);
      TakeU32OfU32(|v.data|, v.data + s);
      TakeOf(v.data, s);
    case Struct(ts) =>
      var bf, body := Pack(NullFlags(v.fields)), EncodeFields(ts, v.fields);
      Assoc(bf, body, s);
      TakeOf(bf, body + s);
      FlagsOfPack(NullFlags(v.fields));
      FieldsRoundTrip(ts, v.fields, s);
    case List(_, e) =>
      var n, bf, body := U32(|v.elems|), Pack(NullFlags(v.elems)), EncodeElems(e, v.elems);
      Assoc(n, bf + body, s);
      TakeU32OfU32(|v.elems|, bf + body + s);
      ListRoundTrip(e, v.elems, s);
    case FixedSizeList(_, e) => ListRoundTrip(e, v.elems, s);
    case Map(k, i) => MapRoundTrip(k, i, v, s);
    case Union(_, codes, arms) =>
      var arm := arms[ChildId(codes, v.code)];
      Assoc([v.code], Encode(arm, v.arm), s);
      TakeOf([v.code], Encode(arm, v.arm) + s);
      RoundTrip(arm, v.arm, s);
  }

  lemma KeysHaveNoNulls(keys: seq<Value>)
    requires Null !in keys
    ensures NullFlags(keys) == seq(|keys|, _ => false)
  {
  }

  lemma {:induction false} MapRoundTrip(k: Type, i: Type, v: Value, s: bytes)
    requires HasType(Map(k, i), v)
    ensures Decode(Map(k, i), Encode(Map(k, i), v) + s) == When(Fits(Map(k, i), v, |s|), v, s)
    decreases Map(k, i), 0
  {
    hide DecodeElems, EncodeElems, ElemsFit;
    var n, keys := U32(|v.keys|), EncodeElems(k, v.keys);
    var vals := Pack(NullFlags(v.items)) + EncodeElems(i, v.items);
    Assoc(n, keys + vals, s);
    Assoc(keys, vals, s);
    TakeU32OfU32(|v.keys|, keys + (vals + s));
    ElemsRoundTrip(k, v.keys, vals + s);
    KeysHaveNoNulls(v.keys);
    ListRoundTrip(i, v.items, s);
  }

  lemma {:induction false} ListRoundTrip(t: Type, vs: seq<Value>, s: bytes)
    requires SlotsHaveType(t, vs)
    ensures DecodeList(t, |vs|, Pack(NullFlags(vs)) + EncodeElems(t, vs) + s)
         == When(ElemsFit(t, vs, |s|), vs, s)
    decreases t, 4
  {
    var bf, body := Pack(NullFlags(vs)), EncodeElems(t, vs);
    Assoc(bf, body, s);
    TakeOf(bf, body + s);
    FlagsOfPack(NullFlags(vs));
    ElemsRoundTrip(t, vs, s);
  }

  lemma {:induction false} SlotRoundTrip(t: Type, v: Value, s: bytes)
    requires SlotHasType(t, v)
    ensures DecodeSlot(t, v == Null, EncodeSlot(t, v) + s) == When(SlotFits(t, v, |s|), v, s)
    decreases t, 2
  {
    if v == Null {
      assert [] + s == s;
    } else {
      RoundTrip(t, v, s);
    }
  }

  lemma {:induction false} ElemsRoundTrip(t: Type, vs: seq<Value>, s: bytes)
    requires SlotsHaveType(t, vs)
    ensures DecodeElems(t, NullFlags(vs), EncodeElems(t, vs) + s) == When(ElemsFit(t, vs, |s|), vs, s)
    decreases t, 3, |vs|
  {
    hide DecodeSlot, EncodeSlot, SlotFits, SlotHasType;
    if vs == [] {
      assert [] + s == s;
    } else {
      var tail := EncodeElems(t, vs[1..]);
      SlotsSplit(vs);
      Assoc(EncodeSlot(t, vs[0]), tail, s);
      SlotRoundTrip(t, vs[0], tail + s);
      ElemsRoundTrip(t, vs[1..], s);
    }
  }

  lemma {:induction false} FieldsRoundTrip(ts: seq<Type>, vs: seq<Value>, s: bytes)
    requires |ts| == |vs| && SlotsHaveTypes(ts, vs)
    ensures DecodeFields(ts, NullFlags(vs), EncodeFields(ts, vs) + s) == When(FieldsFit(ts, vs, |s|), vs, s)
    decreases ts, 0
  {
    hide DecodeSlot, EncodeSlot, SlotFits, SlotHasType;
    if ts == [] {
      assert [] + s == s;
    } else {
      var tail := EncodeFields(ts[1..], vs[1..]);
      SlotsSplit(vs);
      Assoc(EncodeSlot(ts[0], vs[0]), tail, s);
      SlotRoundTrip(ts[0], vs[0], tail + s);
      FieldsRoundTrip(ts[1..], vs[1..], s);
    }
  }
}
