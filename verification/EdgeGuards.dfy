/** Where emitted code looks at a null flag, field kind by field kind, and which classes therefore decode
    every row. */
module EdgeGuards {
  import opened Wire
  import opened RowTypes
  import opened CodecSpec
  import opened CodecRows
  import opened EdgeCode
  import opened EdgeVisitor
  import opened EdgeDecode
  import opened EdgeAgree

  // ----- field kind by field kind -----

  /** A nullable scalar or struct whose flag is set reads nothing and leaves its member empty. */
  lemma {:induction false} NullIsReset(ir: Ir, k: nat, e: Env)
    requires ir.nullable && (ir.node.ScalarN? || ir.node.StructN?) && k < |e.nulls| && e.nulls[k]
    ensures ExecAll(Emit(ir, k), e) == At(e.(member := Null))
  {
    hide LeafOf, Read;
    var guard := Guard(k, [Run(Store(LeafOf(ir)))], [Run(Reset)]);
    assert Emit(ir, k) == [guard];
    Single(guard, e);
    Single(Run(Reset), e);
  }

  /** A scalar that is present, or that cannot be null, is read by the generic decoder. */
  lemma {:induction false} PresentIsRead(ir: Ir, k: nat, e: Env)
    requires ir.node.ScalarN? && k < |e.nulls| && (ir.nullable ==> !e.nulls[k])
    ensures ExecAll(Emit(ir, k), e)
         == match Decode(ir.node.scalar, e.rest) case Err => Fault case Ok(v, r) => At(e.(member := v, rest := r))
  {
    var store := Run(Store(ScalarLeaf(ir.node.scalar)));
    Stored(ir.node.scalar, e);
    hide Decode, Read;
    if ir.nullable {
      assert Emit(ir, k) == [Guard(k, [store], [Run(Reset)])];
      Single(Guard(k, [store], [Run(Reset)]), e);
    } else {
      assert Emit(ir, k) == [store];
    }
  }

  lemma {:induction false} Stored(t: Type, e: Env)
    ensures ExecAll([Run(Store(ScalarLeaf(t)))], e)
         == match Decode(t, e.rest) case Err => Fault case Ok(v, r) => At(e.(member := v, rest := r))
  {
    hide Decode;
    var p := Store(ScalarLeaf(t));
    Single(Run(p), e);
    assert Exec(Run(p), e) == ExecPrim(p, e);
    assert Read(ScalarLeaf(t), e.rest) == Decode(t, e.rest);
    hide ExecAll, Exec, Read;
  }

  /** A nullable list of lists whose flag is set reads nothing and keeps what its member held. */
  lemma {:induction false} NullNestedIsKept(ir: Ir, k: nat, e: Env)
    requires Supported(ir) && ir.nullable && ir.node.ListN? && ir.node.elem.node.ListN? && k < |e.nulls| && e.nulls[k]
    ensures ExecAll(Emit(ir, k), e) == At(e)
  {
    hide LeafOf, Levels;
    assert Core(ir) == Core(ir.node.elem);
    var guard := Guard(k, [Run(Emplace)] + Levels(0, Depth(ir), LeafOf(Core(ir))), []);
    assert Emit(ir, k) == [guard];
    Single(guard, e);
  }

  /** A list of scalars or structs and a map are read whether or not their flag is set. */
  lemma {:induction false} FlagIsIgnored(ir: Ir, k: nat, e: Env, nulls: seq<bool>)
    requires Supported(ir) && (ir.node.MapN? || (ir.node.ListN? && !ir.node.elem.node.ListN?)) && k < |e.nulls| == |nulls|
    ensures var a, b := ExecAll(Emit(ir, k), e), ExecAll(Emit(ir, k), e.(nulls := nulls));
            && (a == Fault <==> b == Fault)
            && (a.At? ==> a.env.member == b.env.member && a.env.rest == b.env.rest)
  {
    FieldIsBlind(ir, k, e);
    FieldIsBlind(ir, k, e.(nulls := nulls));
    hide ExecAll, Emit, Supported, Blind;
  }

  // ----- classes that decode every row -----

  /** A nullable scalar, or a nullable struct of such fields, at every level. */
  predicate NullableThroughout(ir: Ir)
    decreases ir
  {
    && ir.nullable
    && match ir.node
       case ScalarN(_) => true
       case StructN(fields) => forall k | 0 <= k < |fields| :: NullableThroughout(fields[k])
       case _ => false
  }

  lemma {:induction false} WireTypesAt(fields: seq<Ir>, k: nat)
    requires k < |fields|
    ensures WireTypes(fields)[k] == WireType(fields[k])
    decreases |fields|
  {
    hide WireType;
    if k > 0 { WireTypesAt(fields[1..], k - 1); }
  }

  lemma {:induction false} AlwaysFull(ir: Ir, v: Value)
    requires NullableThroughout(ir) && SlotHasType(WireType(ir), v)
    ensures Full(ir, v) && Keeps(ir, v, Null) && !IsNested(ir)
    decreases ir
  {
    if v != Null && ir.node.StructN? {
      var fields := ir.node.fields;
      hide WireType;
      assert SlotsHaveTypes(WireTypes(fields), v.fields) by { assert WireType(ir) == Struct(WireTypes(fields)) by { StructType(ir); } }
      forall k | 0 <= k < |fields|
        ensures Full(fields[k], v.fields[k])
      {
        WireTypesAt(fields, k);
        AlwaysFull(fields[k], v.fields[k]);
      }
    }
  }

  lemma {:induction false} StructType(ir: Ir)
    requires ir.node.StructN?
    ensures WireType(ir) == Struct(WireTypes(ir.node.fields))
  {
  }

  /** Such a class decodes every row that the codec accepts to the same values, whatever it held. */
  lemma {:induction false} NullableClassDecodes(fields: seq<Ir>, was: seq<Value>, row: bytes)
    requires |was| == |fields| && (forall k | 0 <= k < |fields| :: Supported(fields[k]) && NullableThroughout(fields[k]))
    requires DecodeRow(WireTypes(fields), row).Ok?
    ensures DecodeInto(fields, was, row) == Ok(DecodeRow(WireTypes(fields), row).val, [])
  {
    var ts := WireTypes(fields);
    DecodedHasType(Struct(ts), row);
    hide Supported, NullableThroughout, Full, Keeps, DecodeInto, WireTypes, Decode;
    MessageDecodesIff(fields, was, row);
    var vs := DecodeRow(ts, row).val;
    forall k | 0 <= k < |fields|
      ensures Full(fields[k], vs[k]) && Keeps(fields[k], vs[k], was[k])
    {
      WireTypesAt(fields, k);
      AlwaysFull(fields[k], vs[k]);
      KeepsAnything(fields[k], vs[k], was[k]);
    }
  }

  lemma KeepsAnything(ir: Ir, v: Value, was: Value)
    requires !IsNested(ir)
    ensures Keeps(ir, v, was)
  {
  }

  // ----- and no others -----

  /** A value of any other field that emitted code reads past. */
  lemma {:induction false} OverlookedNull(ir: Ir) returns (v: Value)
    requires Supported(ir) && !NullableThroughout(ir)
    ensures SlotHasType(WireType(ir), v) && !Full(ir, v)
    decreases ir
  {
    if ir.node.ListN? {
      v := ListV([Null]);
      NullHasNoBody(ir.node.elem);
      assert WireType(ir) == List(false, WireType(ir.node.elem));
      assert v.elems[0] == Null && !FullBody(ir, v);
      hide WireType;
      assert SlotsHaveType(WireType(ir.node.elem), v.elems);
    } else if ir.nullable && ir.node.StructN? {
      var fields := ir.node.fields;
      var j :| 0 <= j < |fields| && !NullableThroughout(fields[j]);
      var x := OverlookedNull(fields[j]);
      v := StructV(Alone(|fields|, j, x));
      StructType(ir);
      AloneTyped(fields, j, x);
      hide WireType, WireTypes, SlotsHaveTypes;
      assert !Full(fields[j], v.fields[j]);
      hide Full;
      assert !FullBody(ir, v);
      Unfulled(ir, v);
    } else {
      v := Null;
    }
  }

  lemma {:induction false} Unfulled(ir: Ir, v: Value)
    requires v != Null && !FullBody(ir, v)
    ensures !Full(ir, v)
  {
    hide FullBody;
  }

  lemma {:induction false} NullHasNoBody(ir: Ir)
    ensures !FullBody(ir, Null)
  {
  }

  /** A row that is null except in field `j`. */
  function Alone(n: nat, j: nat, v: Value): seq<Value> { seq(n, k => if k == j then v else Null) }

  lemma {:induction false} AloneTyped(fields: seq<Ir>, j: nat, v: Value)
    requires j < |fields| && SlotHasType(WireType(fields[j]), v)
    ensures SlotsHaveTypes(WireTypes(fields), Alone(|fields|, j, v))
  {
    hide WireType, WireTypes, HasType;
    WireTypesAt(fields, j);
  }

  lemma {:induction false} KeysTake(ir: Ir)
    requires Supported(ir) && TypeOk(WireType(ir))
    ensures MapKeysTakeBytes(WireType(ir))
    decreases ir
  {
    match ir.node
    case ScalarN(_) =>
    case StructN(fields) =>
      forall k | 0 <= k < |fields|
        ensures MapKeysTakeBytes(WireTypes(fields)[k])
      {
        WireTypesAt(fields, k);
        KeysTake(fields[k]);
      }
    case ListN(e) => KeysTake(e);
    case MapN(k, i) =>
      KeysTake(k);
      KeysTake(i);
  }

  /** A class decodes every row the codec accepts, whatever its members held, exactly when each of its
      fields is a nullable scalar or a nullable struct of such fields. */
  lemma {:induction false} ClassDecodesAllIff(fields: seq<Ir>)
    requires (forall k | 0 <= k < |fields| :: Supported(fields[k])) && TypesOk(WireTypes(fields))
    ensures (forall was: seq<Value>, row: bytes | |was| == |fields| && DecodeRow(WireTypes(fields), row).Ok? ::
               DecodeInto(fields, was, row) == Ok(DecodeRow(WireTypes(fields), row).val, []))
        <==> forall k | 0 <= k < |fields| :: NullableThroughout(fields[k])
  {
    hide Supported, NullableThroughout, DecodeInto, WireTypes, DecodeRow, TypeOk;
    if forall k | 0 <= k < |fields| :: NullableThroughout(fields[k]) {
      forall was: seq<Value>, row: bytes | |was| == |fields| && DecodeRow(WireTypes(fields), row).Ok?
        ensures DecodeInto(fields, was, row) == Ok(DecodeRow(WireTypes(fields), row).val, [])
      {
        NullableClassDecodes(fields, was, row);
      }
    } else {
      var k :| 0 <= k < |fields| && !NullableThroughout(fields[k]);
      var row := OverlookedRow(fields, k);
      var was: seq<Value> := seq(|fields|, _ => Null);
      assert DecodeInto(fields, was, row) != Ok(DecodeRow(WireTypes(fields), row).val, []);
    }
  }

  lemma {:induction false} OverlookedRow(fields: seq<Ir>, j: nat) returns (row: bytes)
    requires (forall k | 0 <= k < |fields| :: Supported(fields[k])) && TypesOk(WireTypes(fields))
    requires j < |fields| && !NullableThroughout(fields[j])
    ensures DecodeRow(WireTypes(fields), row).Ok?
    ensures DecodeInto(fields, seq(|fields|, _ => Null), row) != Ok(DecodeRow(WireTypes(fields), row).val, [])
  {
    var ts := WireTypes(fields);
    var x := OverlookedNull(fields[j]);
    var vs := Alone(|fields|, j, x);
    AloneTyped(fields, j, x);
    forall k | 0 <= k < |fields|
      ensures MapKeysTakeBytes(ts[k])
    {
      WireTypesAt(fields, k);
      KeysTake(fields[k]);
    }
    assert HasType(Struct(ts), StructV(vs)) by { hide SlotsHaveTypes; }
    assert MapKeysTakeBytes(Struct(ts));
    hide Supported, NullableThroughout, DecodeInto, WireTypes, DecodeRow, TypeOk, HasType, Full, Keeps, EncodeRow;
    RowRoundTrip(ts, vs);
    row := EncodeRow(ts, vs);
    MessageDecodesIff(fields, seq(|fields|, _ => Null), row);
    assert !Full(fields[j], vs[j]);
  }
}
