/** Exactly which types round-trip.  The map guard compares the number of entries with the bytes that
    follow the count, so it can only refuse a map whose keys take no bytes.  Every map around the keys
    of which it lies adds at least one byte behind it, the outer map's value bitfield. */
module MapGuard {
  import opened Wire
  import opened RowTypes
  import opened CodecSpec
  import opened CodecLaws
  import opened CodecRows

  /** The most entries that a map can announce. */
  const MOST: nat := U32_LIMIT - 1

  /** Some value of the type, with at least `depth` bytes behind it, holds a map that the guard refuses:
      a map is reachable whose keys take no bytes, in the keys of so few maps that their bitfields do
      not make up for it.  No slot of a fixed-size list of length 0 is reachable. */
  ghost predicate Refusable(t: Type, depth: nat)
    decreases t
  {
    match t
    case Struct(ts) => exists i | 0 <= i < |ts| :: Refusable(ts[i], depth)
    case List(_, e) => Refusable(e, depth)
    case FixedSizeList(n, e) => n > 0 && Refusable(e, depth)
    case Map(k, i) =>
      || (!TakesBytes(k) && BitfieldBytes(MOST) + depth < MOST)
      || Refusable(k, depth + 1) || Refusable(i, depth)
    case Union(_, _, arms) => exists i | 0 <= i < |arms| :: Refusable(arms[i], depth)
    case _ => false
  }

  // ----- a refused value -----

  function Nulls(n: nat): seq<Value> { seq(n, _ => Null) }

  lemma {:induction false} NullSlots(t: Type, n: nat)
    ensures SlotsHaveType(t, Nulls(n)) && EncodeElems(t, Nulls(n)) == []
  {
    hide Encode, HasType;
    EmptyPayloads(t, Nulls(n));
  }

  lemma {:induction false} FirstArm(codes: seq<nat>, arms: seq<Type>, i: nat)
    requires UnionOk(codes, arms) && i < |codes|
    ensures ChildId(codes, codes[i]) == i
  {
  }

  /** Every type has a value. */
  lemma {:induction false} Inhabited(t: Type) returns (v: Value)
    requires TypeOk(t)
    ensures HasType(t, v) && v != Null
    decreases t
  {
    match t
    case Bool => v := BoolV(false);
    case Fixed(w) => v := FixedV(seq(w, _ => 0));
    case VarLen(_) => v := VarV([]);
    case Struct(ts) => v := StructV(Nulls(|ts|));
    case List(_, e) => v := ListV([]);
    case FixedSizeList(n, e) => v := ListV(Nulls(n));
    case Map(_, _) => v := MapV([], []);
    case Union(_, codes, arms) =>
      var a := Inhabited(arms[0]);
      FirstArm(codes, arms, 0);
      v := UnionV(codes[0], a);
  }

  /** A struct that is null except in field `i`. */
  function Lone(n: nat, i: nat, v: Value): seq<Value> { seq(n, j => if j == i then v else Null) }

  lemma {:induction false} LoneField(ts: seq<Type>, i: nat, v: Value, rest: nat)
    requires i < |ts| && HasType(ts[i], v) && v != Null && !Fits(ts[i], v, rest)
    ensures SlotsHaveTypes(ts, Lone(|ts|, i, v)) && !FieldsFit(ts, Lone(|ts|, i, v), rest)
    decreases |ts|
  {
    hide Encode, HasType, Fits;
    var vs := Lone(|ts|, i, v);
    assert SlotsHaveTypes(ts, vs);
    if i == 0 {
      NullFields(ts[1..], vs[1..]);
    } else {
      LoneField(ts[1..], i - 1, v, rest);
      assert vs[1..] == Lone(|ts| - 1, i - 1, v);
    }
  }

  lemma {:induction false} NullFields(ts: seq<Type>, vs: seq<Value>)
    requires |ts| == |vs| && forall j | 0 <= j < |vs| :: vs[j] == Null
    ensures SlotsHaveTypes(ts, vs) && EncodeFields(ts, vs) == []
    decreases |ts|
  {
    hide Encode, HasType;
    if ts != [] { NullFields(ts[1..], vs[1..]); }
  }

  lemma {:induction false} LoneElem(t: Type, n: nat, v: Value, rest: nat)
    requires n > 0 && HasType(t, v) && v != Null && !Fits(t, v, rest)
    ensures SlotsHaveType(t, [v] + Nulls(n - 1)) && !ElemsFit(t, [v] + Nulls(n - 1), rest)
  {
    hide Encode, HasType, Fits;
    var vs := [v] + Nulls(n - 1);
    assert vs[1..] == Nulls(n - 1);
    NullSlots(t, n - 1);
  }

  /** As many empty keys as the count can hold, over null items. */
  lemma ManyKeys(k: Type, i: Type, rest: nat) returns (v: Value)
    requires !TakesBytes(k) && BitfieldBytes(MOST) + rest < MOST
    ensures HasType(Map(k, i), v) && v != Null && !Fits(Map(k, i), v, rest)
  {
    var key := EmptyKey(k);
    hide Encode;
    var n := MOST;
    hide MOST;
    var ks := seq(n, _ => key);
    assert n < U32_LIMIT by { assert MOST == U32_LIMIT - 1; }
    NullSlots(i, n);
    EmptyPayloads(k, ks);
    v := MapV(ks, Nulls(n));
  }

  lemma {:induction false} RefusedValue(t: Type, depth: nat) returns (v: Value)
    requires TypeOk(t) && Refusable(t, depth)
    ensures HasType(t, v) && v != Null && !Fits(t, v, depth)
    decreases t
  {
    hide Encode, EncodeElems, EncodeFields, ElemsFit, FieldsFit, SlotsHaveType, SlotsHaveTypes;
    match t
    case Struct(ts) =>
      var i :| 0 <= i < |ts| && Refusable(ts[i], depth);
      var x := RefusedValue(ts[i], depth);
      LoneField(ts, i, x, depth);
      v := StructV(Lone(|ts|, i, x));
    case List(_, e) =>
      var x := RefusedValue(e, depth);
      LoneElem(e, 1, x, depth);
      v := ListV([x] + Nulls(0));
    case FixedSizeList(n, e) =>
      var x := RefusedValue(e, depth);
      LoneElem(e, n, x, depth);
      v := ListV([x] + Nulls(n - 1));
    case Map(k, i) => v := RefusedMap(k, i, depth);
    case Union(_, codes, arms) =>
      var i :| 0 <= i < |arms| && Refusable(arms[i], depth);
      var x := RefusedValue(arms[i], depth);
      FirstArm(codes, arms, i);
      v := UnionV(codes[i], x);
    case _ =>
  }

  lemma {:induction false} RefusedMap(k: Type, i: Type, depth: nat) returns (v: Value)
    requires TypeOk(k) && TypeOk(i) && Refusable(Map(k, i), depth)
    ensures HasType(Map(k, i), v) && v != Null && !Fits(Map(k, i), v, depth)
    decreases Map(k, i), 0
  {
    hide Encode, EncodeElems, ElemsFit, SlotsHaveType, BitfieldBytes;
    if !TakesBytes(k) && BitfieldBytes(MOST) + depth < MOST {
      v := ManyKeys(k, i, depth);
    } else if Refusable(k, depth + 1) {
      var x := RefusedValue(k, depth + 1);
      v := OneEntry(k, i, x, Null, depth);
    } else {
      var x := Inhabited(k);
      var y := RefusedValue(i, depth);
      v := OneEntry(k, i, x, y, depth);
    }
  }

  lemma EntryParts(k: Type, i: Type, x: Value, y: Value, depth: nat)
    requires HasType(k, x) && x != Null && SlotHasType(i, y)
    ensures SlotsHaveType(k, [x]) && SlotsHaveType(i, [y]) && HasType(Map(k, i), MapV([x], [y]))
    ensures Fits(Map(k, i), MapV([x], [y]), depth) ==>
              ElemsFit(k, [x], 1 + |EncodeElems(i, [y])| + depth) && ElemsFit(i, [y], depth)
  {
    hide ElemsFit, EncodeElems;
  }

  /** One entry: the key has the bitfield behind it, the item nothing but what follows the map. */
  lemma OneEntry(k: Type, i: Type, x: Value, y: Value, depth: nat) returns (v: Value)
    requires HasType(k, x) && x != Null && SlotHasType(i, y)
    requires if y == Null then !Fits(k, x, depth + 1) else !Fits(i, y, depth)
    ensures HasType(Map(k, i), v) && v != Null && !Fits(Map(k, i), v, depth)
  {
    v := MapV([x], [y]);
    EntryParts(k, i, x, y, depth);
    assert [x] + Nulls(0) == [x] && [y] + Nulls(0) == [y];
    hide Encode, HasType, Fits, ElemsFit;
    if y == Null {
      LoneElem(k, 1, x, depth + 1);
      assert [y] == Nulls(1);
      NullSlots(i, 1);
    } else {
      LoneElem(i, 1, y, depth);
    }
  }

  // ----- every other value -----

  /** A map announces at most `MOST` entries, and a longer one leaves more of them uncovered. */
  lemma GuardHolds(n: nat, depth: nat)
    requires n <= MOST && BitfieldBytes(MOST) + depth >= MOST
    ensures n <= BitfieldBytes(n) + depth
  {
  }

  lemma {:induction false} SafeFits(t: Type, v: Value, depth: nat, rest: nat)
    requires HasType(t, v) && !Refusable(t, depth) && depth <= rest
    ensures Fits(t, v, rest)
    decreases t, 0
  {
    hide Encode, EncodeElems, EncodeFields;
    match t
    case Struct(ts) => SafeFields(ts, v.fields, depth, rest);
    case List(_, e) => SafeElems(e, v.elems, depth, rest);
    case FixedSizeList(_, e) => if v.elems != [] { SafeElems(e, v.elems, depth, rest); }
    case Map(k, i) =>
      hide MOST;
      if TakesBytes(k) { KeysTakeBytes(k, v.keys); } else { GuardHolds(|v.keys|, depth); }
      if v.keys != [] {
        SafeElems(k, v.keys, depth + 1, BitfieldBytes(|v.items|) + |EncodeElems(i, v.items)| + rest);
      }
      SafeElems(i, v.items, depth, rest);
    case Union(_, codes, arms) => SafeFits(arms[ChildId(codes, v.code)], v.arm, depth, rest);
    case _ =>
  }

  lemma {:induction false} SafeElems(t: Type, vs: seq<Value>, depth: nat, rest: nat)
    requires SlotsHaveType(t, vs) && !Refusable(t, depth) && depth <= rest
    ensures ElemsFit(t, vs, rest)
    decreases t, 1, |vs|
  {
    hide Encode, Fits, HasType, Refusable;
    if vs != [] {
      if vs[0] != Null { SafeFits(t, vs[0], depth, |EncodeElems(t, vs[1..])| + rest); }
      SafeElems(t, vs[1..], depth, rest);
    }
  }

  lemma {:induction false} SafeFields(ts: seq<Type>, vs: seq<Value>, depth: nat, rest: nat)
    requires |ts| == |vs| && SlotsHaveTypes(ts, vs) && depth <= rest
    requires forall i | 0 <= i < |ts| :: !Refusable(ts[i], depth)
    ensures FieldsFit(ts, vs, rest)
    decreases ts, 0
  {
    hide Encode, Fits, HasType, Refusable;
    if ts != [] {
      if vs[0] != Null { SafeFits(ts[0], vs[0], depth, |EncodeFields(ts[1..], vs[1..])| + rest); }
      SafeFields(ts[1..], vs[1..], depth, rest);
    }
  }

  // ----- the law -----

  lemma {:induction false} ValueRoundTripsIff(t: Type, v: Value)
    requires HasType(t, v)
    ensures Decode(t, Encode(t, v)) == Ok(v, []) <==> Fits(t, v, 0)
  {
    hide Decode, Encode, HasType, Fits;
    RoundTrip(t, v, []);
    assert Encode(t, v) + [] == Encode(t, v);
  }

  /** All values of a type round-trip exactly when the guard can refuse none of its maps. */
  lemma {:induction false} RoundTripsIff(t: Type)
    requires TypeOk(t)
    ensures RoundTrips(t) <==> !Refusable(t, 0)
  {
    hide Decode, Encode, HasType, Fits, TypeOk, Refusable;
    if Refusable(t, 0) {
      var v := RefusedValue(t, 0);
      ValueRoundTripsIff(t, v);
    } else {
      forall v | HasType(t, v)
        ensures Decode(t, Encode(t, v)) == Ok(v, [])
      {
        SafeFits(t, v, 0, 0);
        ValueRoundTripsIff(t, v);
      }
    }
  }

  /** The same for the rows of a schema. */
  lemma {:induction false} RowsRoundTripIff(schema: seq<Type>)
    requires TypesOk(schema)
    ensures (forall row | HasType(Struct(schema), StructV(row)) :: DecodeRow(schema, EncodeRow(schema, row)) == Ok(row, []))
        <==> forall c | 0 <= c < |schema| :: !Refusable(schema[c], 0)
  {
    var t := Struct(schema);
    RoundTripsIff(t);
    assert Refusable(t, 0) <==> exists c | 0 <= c < |schema| :: Refusable(schema[c], 0);
    hide Decode, Encode, Fits, Refusable, SlotsHaveTypes;
    if Refusable(t, 0) {
      var v :| HasType(t, v) && Decode(t, Encode(t, v)) != Ok(v, []);
      assert v == StructV(v.fields) && DecodeRow(schema, EncodeRow(schema, v.fields)) != Ok(v.fields, []);
    }
  }
}
