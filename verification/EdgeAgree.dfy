/** When the emitted decoder and the generic decoder give the same row: exactly when nulls occur only
    where a guard was emitted, and no null nested list lands on a member that holds something. */
module EdgeAgree {
  import opened Wire
  import opened RowTypes
  import opened CodecSpec
  import opened EdgeCode
  import opened EdgeVisitor
  import opened EdgeDecode

  /** Below `v` there is no null that emitted code would read past. */
  ghost predicate FullBody(ir: Ir, v: Value)
    decreases ir, 0
  {
    match ir.node
    case StructN(fields) =>
      v.StructV? && |v.fields| == |fields| && forall k | 0 <= k < |fields| :: Full(fields[k], v.fields[k])
    case ListN(e) => v.ListV? && forall k | 0 <= k < |v.elems| :: FullBody(e, v.elems[k])
    case MapN(_, i) => v.MapV? && forall k | 0 <= k < |v.items| :: FullBody(i, v.items[k])
    case _ => v != Null
  }

  ghost predicate Full(ir: Ir, v: Value)
    decreases ir, 1
  {
    if v == Null then Guarded(ir) else FullBody(ir, v)
  }

  /** A null nested list needs a member that was empty already: no reset is emitted for it. */
  predicate Keeps(ir: Ir, v: Value, was: Value) { v == Null && IsNested(ir) ==> was == Null }

  // ----- full values decode alike -----

  lemma {:induction false} NeverNull(t: Type, s: bytes)
    ensures Decode(t, s).Ok? ==> Decode(t, s).val != Null
  {
    hide DecodeFields, DecodeElems, DecodeList, Flags, Take, TakeU32;
  }

  lemma {:induction false} NullsAreFlags(t: Type, nulls: seq<bool>, s: bytes)
    ensures var d := DecodeElems(t, nulls, s);
            d.Ok? ==> |d.val| == |nulls| && forall j | 0 <= j < |nulls| :: nulls[j] <==> d.val[j] == Null
    decreases |nulls|
  {
    if nulls != [] {
      NeverNull(t, s);
      hide Decode;
      var d := DecodeSlot(t, nulls[0], s);
      if d.Ok? { NullsAreFlags(t, nulls[1..], d.rest); }
    }
  }

  lemma {:induction false} BlindOfFull(ir: Ir, s: bytes)
    requires Supported(ir) && Decode(WireType(ir), s).Ok? && FullBody(ir, Decode(WireType(ir), s).val)
    ensures Blind(ir, s) == Decode(WireType(ir), s)
    decreases ir, 0, 0
  {
    match ir.node
    case ScalarN(_) =>
    case StructN(_) => StructOfFull(ir, s);
    case ListN(_) => ListOfFull(ir, s);
    case MapN(_, _) => MapOfFull(ir, s);
  }

  lemma {:induction false} ListOfFull(ir: Ir, s: bytes)
    requires ir.node.ListN? && Supported(ir) && Decode(WireType(ir), s).Ok? && FullBody(ir, Decode(WireType(ir), s).val)
    ensures Blind(ir, s) == Decode(WireType(ir), s)
    decreases ir.node.elem, 2, 0
  {
    hide DecodeElems, BlindElems, Flags;
    var c := TakeU32(s);
    var bf := Take(c.rest, BitfieldBytes(c.val));
    ElemsOfFull(ir.node.elem, Flags(bf.val, c.val), bf.rest);
  }

  lemma {:induction false} MapOfFull(ir: Ir, s: bytes)
    requires ir.node.MapN? && Supported(ir) && Decode(WireType(ir), s).Ok? && FullBody(ir, Decode(WireType(ir), s).val)
    ensures Blind(ir, s) == Decode(WireType(ir), s)
    decreases ir.node, 2, 0
  {
    hide DecodeElems, BlindElems, Flags;
    var key, item := ir.node.key, ir.node.value;
    var c := TakeU32(s);
    var flags := seq(c.val, _ => false);
    var ks := DecodeElems(WireType(key), flags, c.rest);
    NullsAreFlags(WireType(key), flags, c.rest);
    ElemsOfFull(key, flags, c.rest);
    var bf := Take(ks.rest, BitfieldBytes(c.val));
    ElemsOfFull(item, Flags(bf.val, c.val), bf.rest);
  }

  lemma {:induction false} ElemsOfFull(ir: Ir, nulls: seq<bool>, s: bytes)
    requires Supported(ir) && DecodeElems(WireType(ir), nulls, s).Ok?
    requires forall x | x in DecodeElems(WireType(ir), nulls, s).val :: FullBody(ir, x)
    ensures BlindElems(ir, |nulls|, s) == DecodeElems(WireType(ir), nulls, s)
    decreases ir, 1, |nulls|
  {
    hide Decode, Blind, Supported, WireType;
    if nulls != [] {
      var t := WireType(ir);
      var d := DecodeElems(t, nulls, s);
      var v := DecodeSlot(t, nulls[0], s);
      var tail := DecodeElems(t, nulls[1..], v.rest);
      assert d == Cons(v.val, tail);
      assert d.val[0] == v.val && FullBody(ir, v.val);
      assert forall x | x in tail.val :: x in d.val;
      BodyIsNotNull(ir, v.val);
      BlindOfFull(ir, s);
      ElemsOfFull(ir, nulls[1..], v.rest);
    }
  }

  lemma {:induction false} BodyIsNotNull(ir: Ir, v: Value)
    requires FullBody(ir, v)
    ensures v != Null
  {
  }

  lemma {:induction false} StructOfFull(ir: Ir, s: bytes)
    requires ir.node.StructN? && Supported(ir) && Decode(WireType(ir), s).Ok? && FullBody(ir, Decode(WireType(ir), s).val)
    ensures Blind(ir, s) == Decode(WireType(ir), s)
    decreases ir.node, 2, 0
  {
    var fields := ir.node.fields;
    hide DecodeFields, BlindFields, WireTypes, Flags, Full;
    var bf := Take(s, BitfieldBytes(|fields|));
    FieldsOfFull(fields, seq(|fields|, _ => Null), Flags(bf.val, |fields|), bf.rest);
  }

  lemma {:induction false} FieldsOfFull(fields: seq<Ir>, was: seq<Value>, nulls: seq<bool>, s: bytes)
    requires |was| == |fields| == |nulls| && (forall k | 0 <= k < |fields| :: Supported(fields[k]))
    requires var d := DecodeFields(WireTypes(fields), nulls, s);
             d.Ok? && |d.val| == |fields|
             && forall k | 0 <= k < |fields| :: Full(fields[k], d.val[k]) && Keeps(fields[k], d.val[k], was[k])
    ensures BlindFields(fields, was, nulls, s) == DecodeFields(WireTypes(fields), nulls, s)
    decreases fields, 0, 0
  {
    hide Decode, Supported, WireType, Full, Keeps, BlindField;
    if fields != [] {
      var ts := WireTypes(fields);
      assert ts[0] == WireType(fields[0]) && ts[1..] == WireTypes(fields[1..]);
      var v := DecodeSlot(ts[0], nulls[0], s);
      var d, tail := DecodeFields(ts, nulls, s), DecodeFields(ts[1..], nulls[1..], v.rest);
      assert d == Cons(v.val, tail);
      assert d.val[0] == v.val && d.val[1..] == tail.val;
      FieldOfFull(fields[0], nulls[0], was[0], s);
      FieldsOfFull(fields[1..], was[1..], nulls[1..], v.rest);
    }
  }

  lemma {:induction false} FieldOfFull(ir: Ir, isNull: bool, was: Value, s: bytes)
    requires Supported(ir) && DecodeSlot(WireType(ir), isNull, s).Ok?
    requires Full(ir, DecodeSlot(WireType(ir), isNull, s).val) && Keeps(ir, DecodeSlot(WireType(ir), isNull, s).val, was)
    ensures BlindField(ir, isNull, was, s) == DecodeSlot(WireType(ir), isNull, s)
    decreases ir, 1, 0
  {
    NeverNull(WireType(ir), s);
    hide Decode, Blind, WireType;
    if !isNull { BlindOfFull(ir, s); }
  }

  // ----- what the emitted code yields is full -----

  lemma {:induction false} BlindIsFull(ir: Ir, s: bytes)
    requires Supported(ir) && Blind(ir, s).Ok?
    ensures FullBody(ir, Blind(ir, s).val)
    decreases ir, 0, 0
  {
    match ir.node
    case ScalarN(t) => NeverNull(t, s);
    case StructN(fields) =>
      hide BlindFields, Full, Flags;
      var bf := Take(s, BitfieldBytes(|fields|));
      var was := seq(|fields|, _ => Null);
      FieldsYield(fields, was, Flags(bf.val, |fields|), bf.rest);
      FreshIsFull(fields, Flags(bf.val, |fields|), BlindFields(fields, was, Flags(bf.val, |fields|), bf.rest).val);
    case ListN(e) =>
      hide BlindElems;
      var h := ReadHeader(s);
      ElemsAreFull(e, h.val, h.rest);
    case MapN(k, i) =>
      hide BlindElems;
      var c := ReadMapCount(s);
      var ks := BlindElems(k, c.val, c.rest);
      ElemsAreFull(i, c.val, Take(ks.rest, BitfieldBytes(c.val)).rest);
  }

  lemma {:induction false} ElemsAreFull(ir: Ir, n: nat, s: bytes)
    requires Supported(ir) && BlindElems(ir, n, s).Ok?
    ensures forall x | x in BlindElems(ir, n, s).val :: FullBody(ir, x)
    decreases ir, 1, n
  {
    hide Blind, Supported, FullBody;
    if n > 0 {
      BlindIsFull(ir, s);
      ElemsAreFull(ir, n - 1, Blind(ir, s).rest);
    }
  }

  /** What a field yields: what the member held, nothing, or a full value. */
  ghost predicate Yields(ir: Ir, isNull: bool, was: Value, v: Value)
  {
    if Guarded(ir) && isNull then v == (if IsNested(ir) then was else Null) else FullBody(ir, v)
  }

  lemma {:induction false} FieldsYield(fields: seq<Ir>, was: seq<Value>, nulls: seq<bool>, s: bytes)
    requires |was| == |fields| == |nulls| && (forall k | 0 <= k < |fields| :: Supported(fields[k]))
    requires BlindFields(fields, was, nulls, s).Ok?
    ensures var vs := BlindFields(fields, was, nulls, s).val;
            |vs| == |fields| && forall k | 0 <= k < |fields| :: Yields(fields[k], nulls[k], was[k], vs[k])
    decreases fields, 0, 0
  {
    hide Blind, Supported, FullBody;
    if fields != [] {
      var b := BlindField(fields[0], nulls[0], was[0], s);
      if !(Guarded(fields[0]) && nulls[0]) { BlindIsFull(fields[0], s); }
      assert Yields(fields[0], nulls[0], was[0], b.val);
      hide Yields, BlindField;
      FieldsYield(fields[1..], was[1..], nulls[1..], b.rest);
    }
  }

  lemma FreshIsFull(fields: seq<Ir>, nulls: seq<bool>, vs: seq<Value>)
    requires |vs| == |fields| == |nulls| && forall k | 0 <= k < |fields| :: Yields(fields[k], nulls[k], Null, vs[k])
    ensures forall k | 0 <= k < |fields| :: Full(fields[k], vs[k])
  {
    hide FullBody, Guarded, IsNested;
    forall k | 0 <= k < |fields|
      ensures Full(fields[k], vs[k])
    {
      assert Yields(fields[k], nulls[k], Null, vs[k]);
      if !(Guarded(fields[k]) && nulls[k]) { BodyIsNotNull(fields[k], vs[k]); }
    }
  }

  // ----- both directions -----

  /** The code emitted for a field yields the generic decoder's value, and stops where it stops,
      exactly when the value is full and no stale list shows through. */
  lemma {:induction false} FieldDecodesIff(ir: Ir, k: nat, e: Env)
    requires Supported(ir) && k < |e.nulls| && DecodeSlot(WireType(ir), e.nulls[k], e.rest).Ok?
    ensures var d := DecodeSlot(WireType(ir), e.nulls[k], e.rest);
            Agrees(ExecAll(Emit(ir, k), e), d) <==> Full(ir, d.val) && Keeps(ir, d.val, e.member)
  {
    var d, b := DecodeSlot(WireType(ir), e.nulls[k], e.rest), BlindField(ir, e.nulls[k], e.member, e.rest);
    FieldIsBlind(ir, k, e);
    NeverNull(WireType(ir), e.rest);
    hide ExecAll, Emit, Decode, Supported, WireType, Blind, FullBody;
    if b == d {
      if !(Guarded(ir) && e.nulls[k]) {
        BlindIsFull(ir, e.rest);
        BodyIsNotNull(ir, b.val);
      }
    }
    if Full(ir, d.val) && Keeps(ir, d.val, e.member) { FieldOfFull(ir, e.nulls[k], e.member, e.rest); }
  }

  /** `DecodeInto`: the fields of a message, decoded over what its members held. */
  function DecodeInto(fields: seq<Ir>, was: seq<Value>, row: bytes): Decoded<seq<Value>>
    requires |was| == |fields|
  {
    match Take(row, BitfieldBytes(|fields|))
    case Err => Err
    case Ok(bf, r) => DecodeMembers(Members(fields, 0), was, Flags(bf, |fields|), r)
  }

  /** On every row the generic decoder accepts, the generated class decodes the same row exactly when
      each field is full and finds its member empty where it must. */
  lemma {:induction false} MessageDecodesIff(fields: seq<Ir>, was: seq<Value>, row: bytes)
    requires |was| == |fields| && (forall k | 0 <= k < |fields| :: Supported(fields[k]))
    requires DecodeRow(WireTypes(fields), row).Ok?
    ensures var vs := DecodeRow(WireTypes(fields), row).val;
            && |vs| == |fields|
            && (DecodeInto(fields, was, row) == Ok(vs, [])
                <==> forall k | 0 <= k < |fields| :: Full(fields[k], vs[k]) && Keeps(fields[k], vs[k], was[k]))
  {
    hide DecodeFields, BlindFields, DecodeMembers, WireTypes, Flags, Full, Keeps, Members, Supported;
    var bf := Take(row, BitfieldBytes(|fields|));
    var nulls := Flags(bf.val, |fields|);
    assert nulls[0..] == nulls;
    MembersAreBlind(fields, 0, was, nulls, bf.rest);
    FieldsAreCounted(fields, nulls, bf.rest);
    var vs := DecodeFields(WireTypes(fields), nulls, bf.rest);
    if BlindFields(fields, was, nulls, bf.rest) == vs { SameIsFull(fields, was, nulls, bf.rest); }
    if forall k | 0 <= k < |fields| :: Full(fields[k], vs.val[k]) && Keeps(fields[k], vs.val[k], was[k]) {
      FieldsOfFull(fields, was, nulls, bf.rest);
    }
  }

  lemma {:induction false} FieldsAreCounted(fields: seq<Ir>, nulls: seq<bool>, s: bytes)
    requires |fields| == |nulls|
    ensures var d := DecodeFields(WireTypes(fields), nulls, s);
            d.Ok? ==> |d.val| == |fields| && forall k | 0 <= k < |fields| :: nulls[k] <==> d.val[k] == Null
    decreases |fields|
  {
    if fields != [] {
      var ts := WireTypes(fields);
      assert ts[0] == WireType(fields[0]) && ts[1..] == WireTypes(fields[1..]);
      NeverNull(ts[0], s);
      hide Decode, WireType, WireTypes;
      var d := DecodeSlot(ts[0], nulls[0], s);
      if d.Ok? { FieldsAreCounted(fields[1..], nulls[1..], d.rest); }
    }
  }

  lemma {:induction false} SameIsFull(fields: seq<Ir>, was: seq<Value>, nulls: seq<bool>, s: bytes)
    requires |was| == |fields| == |nulls| && (forall k | 0 <= k < |fields| :: Supported(fields[k]))
    requires DecodeFields(WireTypes(fields), nulls, s).Ok?
    requires BlindFields(fields, was, nulls, s) == DecodeFields(WireTypes(fields), nulls, s)
    ensures var vs := DecodeFields(WireTypes(fields), nulls, s).val;
            |vs| == |fields| && forall k | 0 <= k < |fields| :: Full(fields[k], vs[k]) && Keeps(fields[k], vs[k], was[k])
  {
    FieldsYield(fields, was, nulls, s);
    FieldsAreCounted(fields, nulls, s);
    hide DecodeFields, BlindFields, WireTypes, FullBody, Supported, Guarded, IsNested;
    var vs := DecodeFields(WireTypes(fields), nulls, s).val;
    forall k | 0 <= k < |fields|
      ensures Full(fields[k], vs[k]) && Keeps(fields[k], vs[k], was[k])
    {
      assert Yields(fields[k], nulls[k], was[k], vs[k]);
      if !(Guarded(fields[k]) && nulls[k]) { BodyIsNotNull(fields[k], vs[k]); }
    }
  }

  // ----- what survives from the previous row -----

  /** Two members that held different things end alike, except behind a null nested list. */
  lemma {:induction false} MemberIsForgottenIff(ir: Ir, k: nat, e: Env, was: Value)
    requires Supported(ir) && k < |e.nulls| && was != e.member
    ensures var a, b := ExecAll(Emit(ir, k), e), ExecAll(Emit(ir, k), e.(member := was));
            && (a == Fault <==> b == Fault)
            && (a.At? ==> a.env.rest == b.env.rest)
            && (a.At? ==> (a.env.member == b.env.member <==> !(ir.nullable && IsNested(ir) && e.nulls[k])))
  {
    FieldIsBlind(ir, k, e);
    FieldIsBlind(ir, k, e.(member := was));
    hide ExecAll, Emit, Supported, Blind, IsNested, IsLeaf;
  }

  /** A member that holds a list keeps it through a row in which the nullable nested list is null,
      although the class promises that nothing survives. */
  lemma StaleListSurvives()
    ensures var ir := Ir(true, ListN(Ir(false, ListN(Ir(false, ScalarN(Bool))))));
            var row := [1];
            && Supported(ir) && DecodeRow(WireTypes([ir]), row) == Ok([Null], [])
            && DecodeInto([ir], [ListV([])], row) == Ok([ListV([])], [])
  {
    var ir := Ir(true, ListN(Ir(false, ListN(Ir(false, ScalarN(Bool))))));
    var row: bytes := [1];
    assert Take(row, BitfieldBytes(1)) == Ok([1], []) by { assert row[..1] == [1] && row[1..] == []; }
    assert Flags([1], 1) == [true];
    NullField(ir);
    assert Core(ir) == Ir(false, ScalarN(Bool));
    hide Decode, DecodeFields, BlindFields, Flags, WireType, WireTypes, Members, DecodeMembers, Blind;
    MembersAreBlind([ir], 0, [ListV([])], [true], []) by { assert [true][0..] == [true]; }
    assert [true][0..] == [true];
    RowOf(WireTypes([ir]), row, [1], []);
  }

  lemma {:induction false} RowOf(ts: seq<Type>, row: bytes, bf: bytes, r: bytes)
    requires Take(row, BitfieldBytes(|ts|)) == Ok(bf, r) && DecodeFields(ts, Flags(bf, |ts|), r) == Ok([Null], [])
    ensures DecodeRow(ts, row) == Ok([Null], [])
  {
    hide DecodeFields, Flags, Take;
  }

  lemma NullField(ir: Ir)
    requires IsNested(ir) && ir.nullable
    ensures DecodeFields(WireTypes([ir]), [true], []) == Ok([Null], [])
    ensures BlindFields([ir], [ListV([])], [true], []) == Ok([ListV([])], [])
  {
    var ts := WireTypes([ir]);
    assert [ir][1..] == [] && ts[1..] == [] && [true][1..] == [] && [ListV([])][1..] == [];
    assert [Null] + [] == [Null] && [ListV([])] + [] == [ListV([])];
    assert DecodeFields([], [], []) == Ok([], []) && BlindFields([], [], [], []) == Ok([], []);
    hide Decode, Blind, WireType;
  }
}
