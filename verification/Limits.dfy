/** When a row is taken, in terms of the buffers themselves: what the columns would hold with the row in
    them, against the number that 32-bit Arrow offsets allow. */
module Limits {
  import opened Wire
  import opened RowTypes
  import opened CodecSpec
  import opened Columns
  import opened Builders
  import opened Budget
  import opened Leaks
  import opened Capacity
  import opened BatchRun

  /** Every utf8 and binary column with 32-bit offsets holds at most 2^31-2 bytes, every such list column
      and every map column at most 2^31-2 elements. */
  ghost predicate OffsetsFit(t: Type, b: Buf)
    decreases t
  {
    match (t, b)
    case (VarLen(narrow), VarBuf(_, _, data)) => narrow ==> |data| <= Pow2(31) - 2
    case (Struct(ts), StructBuf(_, kids)) => |kids| == |ts| && forall k | 0 <= k < |ts| :: OffsetsFit(ts[k], kids[k].buf)
    case (List(large, e), ListBuf(_, _, kid)) => (large || kid.len <= Pow2(31) - 2) && OffsetsFit(e, kid.buf)
    case (FixedSizeList(_, e), FslBuf(_, _, kid)) => OffsetsFit(e, kid.buf)
    case (Map(k, i), MapBuf(_, _, keys, items)) =>
      items.len <= Pow2(31) - 2 && OffsetsFit(k, keys.buf) && OffsetsFit(i, items.buf)
    case (Union(_, _, arms), UnionBuf(_, _, _, _, kids)) =>
      |kids| == |arms| && forall k | 0 <= k < |arms| :: OffsetsFit(arms[k], kids[k].buf)
    case _ => true
  }

  /** The `i`-th slot that a row gives to a dense union finds `i + 1` places below 2^31-2 in its child.
      `ws` are the node's non-null slots in the order of the walk. */
  ghost predicate InTurn(t: Type, b: Buf, ws: seq<Value>)
    decreases t
  {
    && (t.Union? && t.dense && b.UnionBuf? ==> forall i | 0 <= i < |ws| :: ArmInTurn(t, b, i, ws[i]))
    && forall k | 0 <= k < |Kids(t)| && k < |BufKids(b)| :: Kids(t)[k] < t && InTurn(Kids(t)[k], BufKids(b)[k].buf, Reach(t, ws, k))
  }

  ghost predicate ArmInTurn(t: Type, b: Buf, before: nat, v: Value)
    requires t.Union? && b.UnionBuf?
  {
    v.UnionV? ==> var arm := ChildId(t.codes, v.code); 0 <= arm < |b.kids| ==> b.kids[arm].len + before + 1 <= Pow2(31) - 2
  }

  /** There is room for `v` behind the column `b`. */
  ghost predicate RoomFor(t: Type, b: Buf, v: Value)
  {
    OffsetsFit(t, AppendValue(b, v)) && InTurn(t, b, [v])
  }

  // ----- the numbers behind the tallies -----

  lemma LimitIs()
    ensures LIMIT == Pow2(31) - 2
  {
    assert Pow2(8) == 256 by { assert Pow2(4) == 16; }
    assert Pow2(16) == 65536 by { assert Pow2(12) == 4096; }
    assert Pow2(24) == 16777216 by { assert Pow2(20) == 1048576; }
    assert Pow2(31) == 2147483648 by { assert Pow2(28) == 268435456; }
  }

  ghost predicate KidFits(t: Type, b: Buf, k: nat)
    requires k < |Kids(t)| == |BufKids(b)|
  {
    OffsetsFit(Kids(t)[k], BufKids(b)[k].buf)
  }

  lemma {:induction false} FitParts(t: Type, b: Buf)
    requires TypeOk(t) && Built(t, b)
    ensures |BufKids(b)| == |Kids(t)|
    ensures OffsetsFit(t, b) <==>
            (Budgeted(t) && !t.Union? ==> OwnLoad(false, t, b) <= LIMIT) && forall k | 0 <= k < |Kids(t)| :: KidFits(t, b, k)
  {
    LimitIs();
    KidsAreBuilt(t, b);
    hide LIMIT, Pow2;
    match t
    case Map(_, _) =>
      hide OffsetsFit;
      MapFits(t, b);
    case List(_, _) =>
      hide OffsetsFit;
      OneFits(t, b);
    case FixedSizeList(_, _) =>
      hide OffsetsFit;
      OneFits(t, b);
    case Struct(ts) =>
      hide OffsetsFit;
      ManyFit(t, b, ts, b.kids);
    case Union(_, _, arms) =>
      hide OffsetsFit;
      ManyFit(t, b, arms, b.kids);
    case _ =>
  }

  lemma {:induction false} ManyFit(t: Type, b: Buf, ts: seq<Type>, kids: seq<Arr>)
    requires (t.Struct? && b.StructBuf?) || (t.Union? && b.UnionBuf?)
    requires Kids(t) == ts && BufKids(b) == kids && |ts| == |kids|
    ensures OffsetsFit(t, b) <==> forall k | 0 <= k < |ts| :: KidFits(t, b, k)
  {
    hide Pow2;
    if forall k | 0 <= k < |ts| :: KidFits(t, b, k) {
      forall k | 0 <= k < |ts|
        ensures OffsetsFit(ts[k], kids[k].buf)
      {
        assert KidFits(t, b, k);
      }
    }
  }

  lemma {:induction false} OneFits(t: Type, b: Buf)
    requires (t.List? && b.ListBuf?) || (t.FixedSizeList? && b.FslBuf?)
    ensures |Kids(t)| == |BufKids(b)| == 1
    ensures OffsetsFit(t, b) <==> (t.List? && !t.large ==> b.kid.len <= Pow2(31) - 2) && KidFits(t, b, 0)
  {
    hide Pow2;
  }

  lemma {:induction false} MapFits(t: Type, b: Buf)
    requires t.Map? && b.MapBuf?
    ensures OffsetsFit(t, b) <==> b.items.len <= Pow2(31) - 2 && KidFits(t, b, 0) && KidFits(t, b, 1)
  {
    hide Pow2;
  }

  /** The buffers fit exactly when their tally does. */
  lemma {:induction false} OffsetsAreTallied(t: Type, b: Buf)
    requires TypeOk(t) && Built(t, b)
    ensures OffsetsFit(t, b) <==> Within(false, t, Load(false, t, b))
    decreases t
  {
    hide LIMIT, OffsetsFit, Built, TypeOk, OwnLoad, ArmLoad, BufKids;
    KidsAreBuilt(t, b);
    FitParts(t, b);
    var x := Load(false, t, b);
    forall k | 0 <= k < |Kids(t)|
      ensures KidFits(t, b, k) <==> Within(false, Kids(t)[k], x.kids[k])
    {
      OffsetsAreTallied(Kids(t)[k], BufKids(b)[k].buf);
    }
  }

  ghost predicate KidInTurn(t: Type, b: Buf, ws: seq<Value>, k: nat)
    requires k < |Kids(t)| == |BufKids(b)|
  {
    InTurn(Kids(t)[k], BufKids(b)[k].buf, Reach(t, ws, k))
  }

  lemma {:induction false} TurnParts(t: Type, b: Buf, ws: seq<Value>)
    requires |BufKids(b)| == |Kids(t)|
    ensures InTurn(t, b, ws) <==>
            && (t.Union? && t.dense && b.UnionBuf? ==> forall i | 0 <= i < |ws| :: ArmInTurn(t, b, i, ws[i]))
            && forall k | 0 <= k < |Kids(t)| :: KidInTurn(t, b, ws, k)
  {
    hide Reach, ArmInTurn;
    if forall k | 0 <= k < |Kids(t)| :: KidInTurn(t, b, ws, k) {
      forall k | 0 <= k < |Kids(t)|
        ensures InTurn(Kids(t)[k], BufKids(b)[k].buf, Reach(t, ws, k))
      {
        assert KidInTurn(t, b, ws, k);
      }
    }
  }

  lemma {:induction false} ArmsAgree(t: Type, b: Buf, before: nat, v: Value)
    requires t.Union? && t.dense && TypeOk(t) && Built(t, b)
    ensures b.UnionBuf? && (ArmInTurn(t, b, before, v) <==> ArmInTime(t, Load(true, t, b), before, v))
  {
    LimitIs();
    hide LIMIT, Pow2, TypesOk;
  }

  lemma {:induction false} OwnTurn(t: Type, b: Buf, ws: seq<Value>)
    requires TypeOk(t) && Built(t, b)
    ensures (t.Union? && t.dense && b.UnionBuf? ==> forall i | 0 <= i < |ws| :: ArmInTurn(t, b, i, ws[i]))
        <==> OwnInTime(t, Load(true, t, b), 0, ws)
  {
    hide Built, TypeOk, Load, ArmInTurn, ArmInTime;
    if t.Union? && t.dense {
      forall i | 0 <= i < |ws|
        ensures b.UnionBuf? && (ArmInTurn(t, b, i, ws[i]) <==> ArmInTime(t, Load(true, t, b), 0 + i, ws[i]))
      {
        ArmsAgree(t, b, i, ws[i]);
      }
    }
  }

  lemma {:induction false} KidTallies(t: Type, b: Buf, k: nat)
    requires k < |Kids(t)| == |BufKids(b)|
    ensures |Load(true, t, b).kids| == |Zero(t).kids| == |Kids(t)|
    ensures Load(true, t, b).kids[k] == Load(true, Kids(t)[k], BufKids(b)[k].buf) && Zero(t).kids[k] == Zero(Kids(t)[k])
  {
    hide Kids, BufKids, OwnLoad, ArmLoad;
    assert Zeros(t)[k] == Zero(Kids(t)[k]);
  }

  lemma {:induction false} TallyCounts(t: Type, b: Buf)
    requires |Kids(t)| == |BufKids(b)|
    ensures |Load(true, t, b).kids| == |Zero(t).kids| == |Kids(t)| && Zero(t).own == 0
  {
    hide Kids, BufKids, OwnLoad, ArmLoad;
  }

  /** Slots are in turn exactly when the walk finds them in time. */
  lemma {:induction false} TurnIsTime(t: Type, b: Buf, ws: seq<Value>)
    requires TypeOk(t) && Built(t, b)
    ensures InTurn(t, b, ws) <==> InTime(t, Load(true, t, b), Zero(t), ws)
    decreases t
  {
    hide Built, TypeOk, InTurn, InTime, OwnInTime, ArmInTurn, Reach, Load, Zero, BufKids, Kids;
    KidsAreBuilt(t, b);
    TallyCounts(t, b);
    var held, z := Load(true, t, b), Zero(t);
    TurnParts(t, b, ws);
    InTimeParts(t, held, z, ws);
    OwnTurn(t, b, ws);
    forall k | 0 <= k < |Kids(t)|
      ensures KidInTurn(t, b, ws, k) <==> KidInTime(t, held, z, ws, k)
    {
      KidTallies(t, b, k);
      TurnIsTime(Kids(t)[k], BufKids(b)[k].buf, Reach(t, ws, k));
    }
  }

  lemma {:induction false} SameBack(t: Type, a: Tally, b: Tally)
    requires Same(t, a, b)
    ensures Same(t, b, a)
    decreases t
  {
    forall k | 0 <= k < |Kids(t)|
      ensures Same(Kids(t)[k], b.kids[k], a.kids[k])
    {
      SameBack(Kids(t)[k], a.kids[k], b.kids[k]);
    }
  }

  /** The sums that the walk compares are those of the columns with the value in them. */
  lemma {:induction false} SumsAreColumns(t: Type, b: Buf, v: Value)
    requires TypeOk(t) && Built(t, b) && HasType(t, v)
    ensures Within(false, t, Add(Load(true, t, b), Charge(true, t, v))) <==> OffsetsFit(t, AppendValue(b, v))
  {
    hide *;
    AppendedIsBuilt(t, b, v);
    OffsetsAreTallied(t, AppendValue(b, v));
    OffsetsAreCharged(t, b, v);
    SameLoads(t, b);
    SameCharges(t, v);
    var x, y := Add(Load(true, t, b), Charge(true, t, v)), Add(Load(false, t, b), Charge(false, t, v));
    SameAdd(t, Load(true, t, b), Load(false, t, b), Charge(true, t, v), Charge(false, t, v));
    SameBack(t, x, y);
    if Within(false, t, x) { SameWithin(t, x, y); }
    if Within(false, t, y) { SameWithin(t, y, x); }
  }

  // ----- what every run promises -----

  /** After any run, a row that decodes is taken exactly when the columns with the row in them keep all
      their offsets within 2^31-2 and its dense-union slots come in turn. */
  lemma {:induction false} TakenIff(schema: seq<Type>, datas: seq<bytes>, data: bytes)
    requires TypesOk(schema) && DecodeRow(schema, data).Ok?
    ensures Accepts(schema, Run(schema, datas), data)
        <==> RoomFor(Struct(schema), Run(schema, datas), StructV(DecodeRow(schema, data).val))
  {
    hide *;
    var t, table, row := Struct(schema), Run(schema, datas), StructV(DecodeRow(schema, data).val);
    RefusedOnlyForRoom(schema, datas, data);
    BatchIsBuilt(schema, datas);
    RowDecoded(schema, data);
    SumsAreColumns(t, table, row);
    TurnIsTime(t, table, [row]);
    RoomIs(t, table, row);
  }

  lemma {:induction false} RoomIs(t: Type, b: Buf, v: Value)
    ensures RoomFor(t, b, v) <==> OffsetsFit(t, AppendValue(b, v)) && InTurn(t, b, [v])
  {
    hide OffsetsFit, InTurn, AppendValue;
  }

  predicate NoDense(t: Type)
  {
    match t
    case Struct(ts) => forall k | 0 <= k < |ts| :: NoDense(ts[k])
    case List(_, e) => NoDense(e)
    case FixedSizeList(_, e) => NoDense(e)
    case Map(k, i) => NoDense(k) && NoDense(i)
    case Union(dense, _, arms) => !dense && forall k | 0 <= k < |arms| :: NoDense(arms[k])
    case _ => true
  }

  lemma {:induction false} AlwaysInTurn(t: Type, b: Buf, ws: seq<Value>)
    requires NoDense(t)
    ensures InTurn(t, b, ws)
    decreases t
  {
    hide Reach;
    forall k | 0 <= k < |Kids(t)| && k < |BufKids(b)|
      ensures InTurn(Kids(t)[k], BufKids(b)[k].buf, Reach(t, ws, k))
    {
      AlwaysInTurn(Kids(t)[k], BufKids(b)[k].buf, Reach(t, ws, k));
    }
  }

  /** Without dense unions it is a matter of the offsets alone. */
  lemma {:induction false} TakenWhenItFits(schema: seq<Type>, datas: seq<bytes>, data: bytes)
    requires TypesOk(schema) && DecodeRow(schema, data).Ok? && NoDense(Struct(schema))
    ensures Accepts(schema, Run(schema, datas), data)
        <==> OffsetsFit(Struct(schema), AppendValue(Run(schema, datas), StructV(DecodeRow(schema, data).val)))
  {
    hide *;
    var t, table, row := Struct(schema), Run(schema, datas), StructV(DecodeRow(schema, data).val);
    TakenIff(schema, datas, data);
    AlwaysInTurn(t, table, [row]);
    RoomIs(t, table, row);
  }

  /** No utf8, binary, list or map column ever outgrows 2^31-2, whatever the rows hold. */
  lemma {:induction false} OffsetsNeverOutgrow(schema: seq<Type>, datas: seq<bytes>)
    requires TypesOk(schema)
    ensures OffsetsFit(Struct(schema), Run(schema, datas))
  {
    hide *;
    OffsetsAlwaysFit(schema, datas);
    BatchIsBuilt(schema, datas);
    OffsetsAreTallied(Struct(schema), Run(schema, datas));
  }
}
