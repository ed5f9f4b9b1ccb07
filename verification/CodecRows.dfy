/** Consequences of the codec laws for types and whole rows: when printing and parsing undo each other,
    and that whatever is parsed has its type. */
module CodecRows {
  import opened Wire
  import opened RowTypes
  import opened CodecSpec
  import opened CodecLaws

  // ----- the map guard -----

  /** Every value of the type encodes to at least one byte. */
  predicate TakesBytes(t: Type)
  {
    match t
    case Fixed(w) => w > 0
    case Struct(ts) => ts != []
    case FixedSizeList(n, _) => n > 0
    case _ => true
  }

  /** Each map in the type has a key type whose values take at least one byte. */
  predicate MapKeysTakeBytes(t: Type)
  {
    match t
    case Struct(ts) => forall i | 0 <= i < |ts| :: MapKeysTakeBytes(ts[i])
    case List(_, e) => MapKeysTakeBytes(e)
    case FixedSizeList(_, e) => MapKeysTakeBytes(e)
    case Map(k, i) => TakesBytes(k) && MapKeysTakeBytes(k) && MapKeysTakeBytes(i)
    case Union(_, _, arms) => forall i | 0 <= i < |arms| :: MapKeysTakeBytes(arms[i])
    case _ => true
  }

  lemma {:induction false} EncodeTakesBytes(t: Type, v: Value)
    requires HasType(t, v) && TakesBytes(t)
    ensures |Encode(t, v)| > 0
  {
  }

  lemma {:induction false} KeysTakeBytes(t: Type, vs: seq<Value>)
    requires SlotsHaveType(t, vs) && Null !in vs && TakesBytes(t)
    ensures |vs| <= |EncodeElems(t, vs)|
    decreases |vs|
  {
    hide Encode, HasType;
    if vs != [] {
      assert vs[0] != Null;
      EncodeTakesBytes(t, vs[0]);
      KeysTakeBytes(t, vs[1..]);
    }
  }

  lemma {:induction false} AlwaysFits(t: Type, v: Value, rest: nat)
    requires HasType(t, v) && MapKeysTakeBytes(t)
    ensures Fits(t, v, rest)
    decreases t, 0
  {
    match t
    case Bool =>
    case Fixed(_) =>
    case VarLen(_) =>
    case Struct(ts) => FieldsAlwaysFit(ts, v.fields, rest);
    case List(_, e) => ElemsAlwaysFit(e, v.elems, rest);
    case FixedSizeList(_, e) => ElemsAlwaysFit(e, v.elems, rest);
    case Map(k, i) =>
      KeysTakeBytes(k, v.keys);
      ElemsAlwaysFit(k, v.keys, BitfieldBytes(|v.items|) + |EncodeElems(i, v.items)| + rest);
      ElemsAlwaysFit(i, v.items, rest);
    case Union(_, codes, arms) => AlwaysFits(arms[ChildId(codes, v.code)], v.arm, rest);
  }

  lemma {:induction false} ElemsAlwaysFit(t: Type, vs: seq<Value>, rest: nat)
    requires SlotsHaveType(t, vs) && MapKeysTakeBytes(t)
    ensures ElemsFit(t, vs, rest)
    decreases t, 1, |vs|
  {
    hide Encode, Fits, HasType;
    if vs != [] {
      if vs[0] != Null { AlwaysFits(t, vs[0], |EncodeElems(t, vs[1..])| + rest); }
      ElemsAlwaysFit(t, vs[1..], rest);
    }
  }

  lemma {:induction false} FieldsAlwaysFit(ts: seq<Type>, vs: seq<Value>, rest: nat)
    requires |ts| == |vs| && SlotsHaveTypes(ts, vs)
    requires forall i | 0 <= i < |ts| :: MapKeysTakeBytes(ts[i])
    ensures FieldsFit(ts, vs, rest)
    decreases ts, 0
  {
    hide Encode, Fits, HasType;
    if ts != [] {
      if vs[0] != Null { AlwaysFits(ts[0], vs[0], |EncodeFields(ts[1..], vs[1..])| + rest); }
      FieldsAlwaysFit(ts[1..], vs[1..], rest);
    }
  }

  /** Decoding an encoded row gives the row back, for every schema whose map keys take bytes. */
  lemma RowRoundTrip(schema: seq<Type>, row: seq<Value>)
    requires HasType(Struct(schema), StructV(row))
    requires MapKeysTakeBytes(Struct(schema))
    ensures DecodeRow(schema, EncodeRow(schema, row)) == Ok(row, [])
  {
    var t, v := Struct(schema), StructV(row);
    AlwaysFits(t, v, 0);
    RoundTrip(t, v, []);
    assert Encode(t, v) + [] == Encode(t, v);
  }

  ghost predicate RoundTrips(t: Type) {
    forall v | HasType(t, v) :: Decode(t, Encode(t, v)) == Ok(v, [])
  }

  lemma {:induction false} EmptyPayloads(t: Type, vs: seq<Value>)
    requires SlotsHaveType(t, vs)
    requires forall i | 0 <= i < |vs| :: EncodeSlot(t, vs[i]) == []
    ensures EncodeElems(t, vs) == []
    decreases |vs|
  {
    hide Encode, HasType;
    if vs != [] { EmptyPayloads(t, vs[1..]); }
  }

  /** Two entries with empty keys and null items: the count exceeds the one byte that follows it. */
  lemma {:induction false} EmptyKeysAreRefused(k: Type, i: Type, key: Value)
    requires HasType(k, key) && key != Null && Encode(k, key) == []
    ensures HasType(Map(k, i), MapV([key, key], [Null, Null]))
    ensures Decode(Map(k, i), Encode(Map(k, i), MapV([key, key], [Null, Null]))).Err?
  {
    var t, v := Map(k, i), MapV([key, key], [Null, Null]);
    EmptyPayloads(k, v.keys);
    EmptyPayloads(i, v.items);
    hide EncodeElems, ElemsFit, Decode;
    assert !Fits(t, v, 0);
    RoundTrip(t, v, []);
    assert Encode(t, v) + [] == Encode(t, v);
  }

  lemma {:induction false} RoundTripsIfFits(t: Type, v: Value)
    requires HasType(t, v) && MapKeysTakeBytes(t)
    ensures Decode(t, Encode(t, v)) == Ok(v, [])
  {
    AlwaysFits(t, v, 0);
    RoundTrip(t, v, []);
    assert Encode(t, v) + [] == Encode(t, v);
  }

  lemma EmptyKey(k: Type) returns (key: Value)
    requires !TakesBytes(k)
    ensures HasType(k, key) && key != Null && Encode(k, key) == []
  {
    key := match k case Fixed(_) => FixedV([]) case Struct(_) => StructV([]) case _ => ListV([]);
  }

  /** A map type round-trips exactly when its keys take at least one byte. */
  lemma {:induction false} MapRoundTripsIff(k: Type, i: Type)
    requires MapKeysTakeBytes(k) && MapKeysTakeBytes(i)
    ensures RoundTrips(Map(k, i)) <==> TakesBytes(k)
  {
    hide Encode, Decode, HasType;
    var t := Map(k, i);
    if TakesBytes(k) {
      forall v | HasType(t, v)
        ensures Decode(t, Encode(t, v)) == Ok(v, [])
      {
        RoundTripsIfFits(t, v);
      }
    } else {
      var key := EmptyKey(k);
      EmptyKeysAreRefused(k, i, key);
    }
  }

  // ----- what decoding accepts is well typed -----

  lemma {:induction false} DecodedHasType(t: Type, s: bytes)
    requires Decode(t, s).Ok?
    ensures Decode(t, s).val != Null && HasType(t, Decode(t, s).val)
    decreases t, 0
  {
    hide DecodeElems, DecodeFields, DecodeList, SlotsHaveType, SlotsHaveTypes, Flags;
    match t
    case Bool =>
    case Fixed(_) =>
    case VarLen(_) =>
    case Struct(ts) =>
      var b := Take(s, BitfieldBytes(|ts|));
      FieldsHaveTypes(ts, Flags(b.val, |ts|), b.rest);
    case List(_, e) => ListHasType(e, TakeU32(s).val, s[4..]);
    case FixedSizeList(n, e) => ListHasType(e, n, s);
    case Map(k, i) =>
      var n := TakeU32(s).val;
      var ks := DecodeElems(k, seq(n, _ => false), s[4..]);
      ElemsHaveType(k, seq(n, _ => false), s[4..]);
      assert Null !in ks.val by { NoNullKeys(ks.val); }
      ListHasType(i, n, ks.rest);
    case Union(_, codes, arms) => DecodedHasType(arms[ChildId(codes, s[0])], s[1..]);
  }

  lemma NoNullKeys(ks: seq<Value>)
    requires NullFlags(ks) == seq(|ks|, _ => false)
    ensures Null !in ks
  {
    forall i | 0 <= i < |ks|
      ensures ks[i] != Null
    {
      assert !NullFlags(ks)[i];
    }
  }

  lemma {:induction false} ListHasType(t: Type, n: nat, s: bytes)
    requires DecodeList(t, n, s).Ok?
    ensures |DecodeList(t, n, s).val| == n && SlotsHaveType(t, DecodeList(t, n, s).val)
    decreases t, 2
  {
    var b := Take(s, BitfieldBytes(n));
    ElemsHaveType(t, Flags(b.val, n), b.rest);
  }

  lemma {:induction false} ElemsHaveType(t: Type, nulls: seq<bool>, s: bytes)
    requires DecodeElems(t, nulls, s).Ok?
    ensures var vs := DecodeElems(t, nulls, s).val;
            |vs| == |nulls| && NullFlags(vs) == nulls && SlotsHaveType(t, vs)
    decreases t, 1, |nulls|
  {
    hide Decode, HasType;
    if nulls != [] {
      if !nulls[0] { DecodedHasType(t, s); }
      ElemsHaveType(t, nulls[1..], DecodeSlot(t, nulls[0], s).rest);
    }
  }

  lemma {:induction false} FieldsHaveTypes(ts: seq<Type>, nulls: seq<bool>, s: bytes)
    requires |ts| == |nulls| && DecodeFields(ts, nulls, s).Ok?
    ensures var vs := DecodeFields(ts, nulls, s).val;
            |vs| == |ts| && NullFlags(vs) == nulls && SlotsHaveTypes(ts, vs)
    decreases ts, 0
  {
    hide Decode, HasType;
    if ts != [] {
      if !nulls[0] { DecodedHasType(ts[0], s); }
      FieldsHaveTypes(ts[1..], nulls[1..], DecodeSlot(ts[0], nulls[0], s).rest);
    }
  }
}
