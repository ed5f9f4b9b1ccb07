/** Two rows that show what the dense-union counter gets wrong, each offered to a decoder after a run of
    ordinary rows.  The schema is one list of a dense union with two boolean arms. */
module CapacityExamples {
  import opened Wire
  import opened RowTypes
  import opened CodecSpec
  import CodecRows
  import opened Columns
  import opened Builders
  import opened Budget
  import opened Capacity
  import opened BatchRun

  const ARMS := Union(true, [0, 1], [Bool, Bool])
  const SCHEMA := [List(true, ARMS)]

  function Slot(code: nat): Value { UnionV(code, BoolV(true)) }

  /** A row whose list holds the union slots `vs`. */
  function Row(vs: seq<Value>): seq<Value> { [ListV(vs)] }

  /** The tally of the union, and the lengths of its two children. */
  function Inner(x: Tally): Tally { if |x.kids| == 1 && |x.kids[0].kids| == 1 then x.kids[0].kids[0] else x }

  ghost function Lengths(b: Buf): seq<nat> { Inner(Load(true, Struct(SCHEMA), b)).arms }

  // ----- what a row of this schema takes and needs -----

  lemma Codes()
    ensures ChildId([0, 1], 0) == 0 && ChildId([0, 1], 1) == 1
  {
    assert [0, 1][..1] == [0];
    assert ChildId([0], 0) == 0;
  }

  lemma SchemaOk()
    ensures TypesOk(SCHEMA) && TypeOk(Struct(SCHEMA)) && TypeOk(SCHEMA[0]) && TypeOk(ARMS)
    ensures CodecRows.MapKeysTakeBytes(Struct(SCHEMA))
  {
    assert CodecRows.MapKeysTakeBytes(ARMS);
  }

  lemma SlotTyped(x: nat)
    requires x < 2
    ensures HasType(ARMS, Slot(x))
  {
    Codes();
    assert HasType(Bool, BoolV(true));
  }

  predicate Usable(vs: seq<Value>)
  {
    |vs| <= 2 && forall i | 0 <= i < |vs| :: vs[i] == Null || vs[i] == Slot(0) || vs[i] == Slot(1)
  }

  lemma RowTyped(vs: seq<Value>)
    requires Usable(vs)
    ensures HasType(Struct(SCHEMA), StructV(Row(vs)))
  {
    SlotTyped(0);
    SlotTyped(1);
    hide Slot;
    assert SlotsHaveType(ARMS, vs) && HasType(SCHEMA[0], ListV(vs));
    assert SlotHasType(SCHEMA[0], Row(vs)[0]);
  }

  ghost function Sent(vs: seq<Value>): bytes
    requires Usable(vs)
  {
    RowTyped(vs);
    EncodeRow(SCHEMA, Row(vs))
  }

  lemma {:induction false} Shape(t: Type, x: Tally)
    requires t == Struct(SCHEMA) && TallyOf(t, x)
    ensures |x.kids| == |x.kids[0].kids| == 1 && Kids(t) == SCHEMA && Kids(SCHEMA[0]) == [ARMS]
    ensures TallyOf(ARMS, Inner(x)) && |Inner(x).arms| == |Inner(x).kids| == 2
  {
    assert TallyOf(SCHEMA[0], x.kids[0]);
  }

  lemma {:induction false} InnerAdd(t: Type, x: Tally, y: Tally)
    requires t == Struct(SCHEMA) && TallyOf(t, x) && TallyOf(t, y)
    ensures Inner(Add(x, y)).arms == AddNats(Inner(x).arms, Inner(y).arms)
  {
    Shape(t, x);
    Shape(t, y);
    hide TallyOf, Add, AddAll;
    AddUnfold(x, y);
    AddAllIs(x.kids, y.kids, [Add(x.kids[0], y.kids[0])]);
    AddUnfold(x.kids[0], y.kids[0]);
    AddAllIs(x.kids[0].kids, y.kids[0].kids, [Add(Inner(x), Inner(y))]);
    AddUnfold(Inner(x), Inner(y));
  }

  lemma {:induction false} UnionWithin(dense: bool, t: Type, x: Tally)
    requires t == ARMS && TallyOf(t, x)
    ensures |x.arms| == 2
    ensures Within(dense, t, x) <==> (dense ==> x.arms[0] <= LIMIT && x.arms[1] <= LIMIT)
  {
    hide LIMIT;
    assert TallyOf(Bool, x.kids[0]) && TallyOf(Bool, x.kids[1]);
  }

  lemma {:induction false} OuterWithin(dense: bool, t: Type, x: Tally, e: Type)
    requires (t == Struct([e]) || t == List(true, e)) && |x.kids| == 1 && x.arms == []
    ensures Within(dense, t, x) <==> Within(dense, e, x.kids[0])
  {
    hide LIMIT;
    assert Kids(t) == [e];
  }

  /** No node of the schema but the union has a 32-bit budget. */
  lemma {:induction false} InnerWithin(dense: bool, t: Type, x: Tally)
    requires t == Struct(SCHEMA) && TallyOf(t, x)
    ensures |Inner(x).arms| == 2
    ensures Within(dense, t, x) <==> (dense ==> Inner(x).arms[0] <= LIMIT && Inner(x).arms[1] <= LIMIT)
  {
    Shape(t, x);
    assert x.arms == [] && x.kids[0].arms == [] by { assert TallyOf(SCHEMA[0], x.kids[0]); }
    hide LIMIT, Within, TallyOf;
    OuterWithin(dense, t, x, SCHEMA[0]);
    OuterWithin(dense, SCHEMA[0], x.kids[0], ARMS);
    UnionWithin(dense, ARMS, Inner(x));
  }

  lemma {:induction false} InnerGrowth(t: Type, e: Type, u: Type, vs: seq<Value>)
    requires t == Struct([e]) && e == List(true, u)
    ensures Inner(Growth(true, t, StructV(Row(vs)))) == KidGrowth(true, e, u, vs)
  {
    hide KidGrowth, Growth, ElemsGrowth, Zero, Add, TallyOf;
    RowGrowth(t, e, ListV(vs));
    ListGrowth(e, u, vs);
    OneGrowth(e, ListV(vs));
  }

  lemma {:induction false} OneGrowth(t: Type, v: Value)
    requires v != Null
    ensures ElemsGrowth(true, t, [v]) == Growth(true, t, v)
  {
    hide Growth, Zero, Add, TallyOf;
    GrowthIsTally(true, t, v);
    AddZero(t, Growth(true, t, v));
    assert [v][1..] == [];
    assert ElemsGrowth(true, t, [v][1..]) == Zero(t);
  }

  lemma {:induction false} RowGrowth(t: Type, e: Type, v: Value)
    requires t == Struct([e])
    ensures Growth(true, t, StructV([v])).kids == [ElemsGrowth(true, e, [v])]
  {
    hide ElemsGrowth;
  }

  lemma {:induction false} ListGrowth(t: Type, e: Type, vs: seq<Value>)
    requires t == List(true, e)
    ensures Growth(true, t, ListV(vs)).kids == [KidGrowth(true, t, e, vs)]
  {
    hide KidGrowth;
  }

  lemma {:induction false} Nested(t: Type, e: Type, u: Type, x: Tally)
    requires t == Struct([e]) && e == List(true, u) && TallyOf(t, x)
    ensures Kids(t) == [e] && Kids(e) == [u] && |x.kids| == |x.kids[0].kids| == 1 && TallyOf(u, Inner(x))
  {
    assert TallyOf(e, x.kids[0]);
  }

  lemma {:induction false} InnerZero(t: Type, e: Type, u: Type)
    requires t == Struct([e]) && e == List(true, u)
    ensures Zero(t).kids == [Zero(e)] && Zero(e).kids == [Zero(u)] && Zero(t).own == Zero(e).own == Zero(u).own == 0
  {
  }

  lemma {:induction false} InnerReach(t: Type, e: Type, vs: seq<Value>)
    requires t == Struct([e]) && e.List?
    ensures Reach(t, [StructV(Row(vs))], 0) == [ListV(vs)] && Reach(e, [ListV(vs)], 0) == NonNull(vs)
  {
    var v, row := ListV(vs), StructV(Row(vs));
    assert [v][1..] == [] && [row][1..] == [];
    assert NonNull([v][1..]) == [] && NonNull([v]) == [v];
    hide NonNull;
    assert Reach(t, [row][1..], 0) == [] && Reach(e, [v][1..], 0) == [];
    assert NonNull(vs) + [] == NonNull(vs) && [v] + [] == [v];
  }

  lemma {:induction false} InnerInTime(t: Type, e: Type, u: Type, held: Tally, vs: seq<Value>)
    requires t == Struct([e]) && e == List(true, u) && u.Union? && TallyOf(t, held)
    ensures InTime(t, held, Zero(t), [StructV(Row(vs))]) <==> InTime(u, Inner(held), Zero(u), NonNull(vs))
  {
    hide Zero, TallyOf, Reach, NonNull, InTime;
    var v, row := ListV(vs), StructV(Row(vs));
    InnerZero(t, e, u);
    InnerReach(t, e, vs);
    Nested(t, e, u, held);
    InTimeParts(t, held, Zero(t), [row]);
    InTimeParts(e, held.kids[0], Zero(e), [v]);
    assert KidInTime(t, held, Zero(t), [row], 0) <==> InTime(e, held.kids[0], Zero(e), [v]);
    assert KidInTime(e, held.kids[0], Zero(e), [v], 0) <==> InTime(u, Inner(held), Zero(u), NonNull(vs));
  }

  /** The `i`-th of the union's non-null slots needs `i + 1` places in its child. */
  lemma {:induction false} UnionInTime(t: Type, held: Tally, ws: seq<Value>)
    requires t == ARMS && TallyOf(t, held)
    ensures InTime(t, held, Zero(t), ws) <==> OwnInTime(t, held, 0, ws)
  {
    ZeroIsTally(t);
    assert Zero(t).own == 0;
    hide Zero, Reach, InTime, OwnInTime;
    InTimeParts(t, held, Zero(t), ws);
    forall k | 0 <= k < 2
      ensures KidInTime(t, held, Zero(t), ws, k)
    {
      BoolInTime(held.kids[k], Zero(t).kids[k], Reach(t, ws, k));
    }
  }

  lemma {:induction false} BoolInTime(held: Tally, p: Tally, ws: seq<Value>)
    ensures InTime(Bool, held, p, ws)
  {
  }

  // ----- offering a row -----

  lemma SentDecodes(vs: seq<Value>)
    requires Usable(vs)
    ensures DecodeRow(SCHEMA, Sent(vs)) == Ok(Row(vs), [])
  {
    hide HasType, Encode, Decode, DecodeRow, EncodeRow;
    RowTyped(vs);
    SchemaOk();
    CodecRows.RowRoundTrip(SCHEMA, Row(vs));
  }

  /** Columns of this schema are within their limits when the union's children are. */
  lemma {:induction false} LengthsWithin(b: Buf)
    requires Built(Struct(SCHEMA), b)
    ensures |Lengths(b)| == 2
    ensures Within(true, Struct(SCHEMA), Load(true, Struct(SCHEMA), b)) <==> Lengths(b)[0] <= LIMIT && Lengths(b)[1] <= LIMIT
  {
    SchemaOk();
    hide LIMIT, Built, TypeOk, Load, TallyOf, Within;
    LoadIsTally(true, Struct(SCHEMA), b);
    InnerWithin(true, Struct(SCHEMA), Load(true, Struct(SCHEMA), b));
  }

  lemma {:induction false} Appending(b: Buf, vs: seq<Value>)
    requires Built(Struct(SCHEMA), b) && Usable(vs)
    ensures Built(Struct(SCHEMA), AppendValue(b, StructV(Row(vs))))
    ensures Lengths(AppendValue(b, StructV(Row(vs)))) == AddNats(Lengths(b), KidGrowth(true, SCHEMA[0], ARMS, vs).arms)
  {
    var t, v := Struct(SCHEMA), StructV(Row(vs));
    SchemaOk();
    RowTyped(vs);
    hide Built, TypeOk, Load, TallyOf, AppendValue, HasType, Growth, KidGrowth, Add, Inner, ValueAt, Row;
    ValueAppended(t, b, v);
    ValueTakes(true, t, b, v);
    LoadIsTally(true, t, b);
    GrowthIsTally(true, t, v);
    InnerAdd(t, Load(true, t, b), Growth(true, t, v));
    InnerGrowth(t, SCHEMA[0], ARMS, vs);
  }

  lemma {:induction false} Offering(datas: seq<bytes>, vs: seq<Value>)
    requires Usable(vs)
    ensures var t, b := Struct(SCHEMA), Run(SCHEMA, datas);
            && Built(t, b) && |Lengths(b)| == 2
            && (Accepts(SCHEMA, b, Sent(vs)) <==> OwnInTime(ARMS, Inner(Load(true, t, b)), 0, NonNull(vs)))
            && (Accepts(SCHEMA, b, Sent(vs)) ==> Run(SCHEMA, datas + [Sent(vs)]) == AppendValue(b, StructV(Row(vs))))
  {
    var t, b, v := Struct(SCHEMA), Run(SCHEMA, datas), StructV(Row(vs));
    SchemaOk();
    SentDecodes(vs);
    assert (datas + [Sent(vs)])[..|datas|] == datas;
    hide Built, TypeOk, Load, TallyOf, AppendValue, HasType, Charge, Add, Zero, Within, InTime, OwnInTime, NonNull, Sent, Row, Accepts,
      DecodeRow;
    BatchIsBuilt(SCHEMA, datas);
    RefusedOnlyForRoom(SCHEMA, datas, Sent(vs));
    var held := Load(true, t, b);
    LoadIsTally(true, t, b);
    ChargeIsTally(true, t, v);
    AddTallies(t, held, Charge(true, t, v), held);
    InnerWithin(false, t, Add(held, Charge(true, t, v)));
    InnerInTime(t, SCHEMA[0], ARMS, held, vs);
    Shape(t, held);
    UnionInTime(ARMS, Inner(held), NonNull(vs));
  }

  lemma SlotInTime(held: Tally, before: nat, x: nat)
    requires x < 2 == |held.arms|
    ensures ArmInTime(ARMS, held, before, Slot(x)) <==> held.arms[x] + before + 1 <= LIMIT
  {
    Codes();
    hide LIMIT;
  }

  lemma NullTakes()
    ensures KidGrowth(true, SCHEMA[0], ARMS, [Null]).arms == [1, 0] && NonNull([Null]) == []
  {
    hide EmptyGrowth;
    assert [Null][1..] == [];
    assert NullGrowth(true, ARMS, 1).arms == RunArms(true, ARMS) == [1, 0];
  }

  lemma {:induction false} SlotTakesOne(t: Type, x: nat)
    requires t == ARMS && x < 2
    ensures Growth(true, t, Slot(x)).arms == [if x == 0 then 1 else 0, if x == 1 then 1 else 0] && Zero(t).arms == [0, 0]
  {
    Codes();
    hide KidGrowth;
  }

  lemma {:induction false} OneTakes(t: Type, x: nat)
    requires t == ARMS && x < 2
    ensures ElemsGrowth(true, t, [Slot(x)]).arms == [if x == 0 then 1 else 0, if x == 1 then 1 else 0]
    ensures NonNull([Slot(x)]) == [Slot(x)]
  {
    SlotTakesOne(t, x);
    assert [Slot(x)][1..] == [] && NonNull([Slot(x)][1..]) == [];
    hide Add, Growth, Zero;
    assert ElemsGrowth(true, t, [Slot(x)][1..]) == Zero(t);
    AddUnfold(Growth(true, t, Slot(x)), Zero(t));
  }

  lemma {:induction false} TwoTake(t: Type, x: nat, y: nat)
    requires t == ARMS && x < 2 && y < 2 && x != y
    ensures ElemsGrowth(true, t, [Slot(x), Slot(y)]).arms == [1, 1]
    ensures NonNull([Slot(x), Slot(y)]) == [Slot(x), Slot(y)]
  {
    SlotTakesOne(t, x);
    OneTakes(t, y);
    hide Add, Growth, Zero;
    var vs := [Slot(x), Slot(y)];
    assert vs[1..] == [Slot(y)];
    assert NonNull(vs) == [vs[0]] + NonNull([Slot(y)]);
    assert ElemsGrowth(true, t, vs) == Add(Growth(true, t, vs[0]), ElemsGrowth(true, t, [Slot(y)]));
    AddUnfold(Growth(true, t, vs[0]), ElemsGrowth(true, t, [Slot(y)]));
  }

  lemma {:induction false} KidIsElems(t: Type, e: Type, vs: seq<Value>)
    requires vs != [] && vs[0] != Null
    ensures KidGrowth(true, t, e, vs) == ElemsGrowth(true, e, vs)
  {
    hide ElemsGrowth, NullGrowth;
  }

  /** One slot of the first arm is taken when its child has one place left. */
  lemma {:induction false} OneMore(datas: seq<bytes>, n: nat)
    requires Lengths(Run(SCHEMA, datas)) == [n, 0] && n < LIMIT
    ensures Lengths(Run(SCHEMA, datas + [Sent([Slot(0)])])) == [n + 1, 0]
  {
    hide LIMIT, Sent, Run, Accepts, Load, AppendValue, Built, Inner, ElemsGrowth, KidGrowth, NonNull, ArmInTime;
    var vs, b := [Slot(0)], Run(SCHEMA, datas);
    OneTakes(ARMS, 0);
    KidIsElems(SCHEMA[0], ARMS, vs);
    Offering(datas, vs);
    SlotInTime(Inner(Load(true, Struct(SCHEMA), b)), 0, 0);
    Appending(b, vs);
  }

  /** A null slot is always taken. */
  lemma {:induction false} NullMore(datas: seq<bytes>, n: nat)
    requires Lengths(Run(SCHEMA, datas)) == [n, 0]
    ensures Accepts(SCHEMA, Run(SCHEMA, datas), Sent([Null]))
    ensures Lengths(Run(SCHEMA, datas + [Sent([Null])])) == [n + 1, 0]
  {
    hide LIMIT, Sent, Run, Accepts, Load, AppendValue, Built, Inner, KidGrowth, NonNull, ArmInTime;
    NullTakes();
    Offering(datas, [Null]);
    Appending(Run(SCHEMA, datas), [Null]);
  }

  /** Two slots in different arms: the second needs two places, whichever arm it is in. */
  lemma {:induction false} TwoMore(datas: seq<bytes>, n: nat, x: nat, y: nat)
    requires Lengths(Run(SCHEMA, datas)) == [n, 0] && x < 2 && y < 2 && x != y
    ensures var b, vs := Run(SCHEMA, datas), [Slot(x), Slot(y)];
            && (Accepts(SCHEMA, b, Sent(vs)) <==> [n, 0][x] + 1 <= LIMIT && [n, 0][y] + 2 <= LIMIT)
            && Lengths(AppendValue(b, StructV(Row(vs)))) == [n + 1, 1]
  {
    hide LIMIT, Sent, Run, Accepts, Load, AppendValue, Built, Inner, ElemsGrowth, KidGrowth, NonNull, ArmInTime, Row;
    var vs, b := [Slot(x), Slot(y)], Run(SCHEMA, datas);
    TwoTake(ARMS, x, y);
    KidIsElems(SCHEMA[0], ARMS, vs);
    Offering(datas, vs);
    var held := Inner(Load(true, Struct(SCHEMA), b));
    SlotInTime(held, 0, x);
    SlotInTime(held, 1, y);
    assert OwnInTime(ARMS, held, 0, vs) <==> ArmInTime(ARMS, held, 0 + 0, vs[0]) && ArmInTime(ARMS, held, 0 + 1, vs[1]);
    Appending(b, vs);
  }

  lemma NoneFilled()
    ensures Lengths(Run(SCHEMA, [])) == [0, 0]
  {
    EmptyLoad(true, Struct(SCHEMA));
    InnerZero(Struct(SCHEMA), SCHEMA[0], ARMS);
    SlotTakesOne(ARMS, 0);
    hide Load, Zero;
  }

  /** After `n` rows with one slot of the first arm each, the first child holds `n` slots. */
  lemma {:induction false} Filled(n: nat)
    requires n <= LIMIT
    ensures Lengths(Run(SCHEMA, Rep(n, Sent([Slot(0)])))) == [n, 0]
    decreases n
  {
    var data := Sent([Slot(0)]);
    hide LIMIT, Sent, Run, Lengths, Usable;
    if n == 0 {
      NoneFilled();
      assert Rep(0, data) == [];
    } else {
      Filled(n - 1);
      assert Rep(n, data) == Rep(n - 1, data) + [data];
      OneMore(Rep(n - 1, data), n - 1);
    }
  }

  // ----- the two rows -----

  /** After rows that fill the first child, a row with a null slot is accepted and takes that child past
      2^31-2. */
  lemma NullsCanOverflow()
    ensures var t, full, data := Struct(SCHEMA), Rep(LIMIT, Sent([Slot(0)])), Sent([Null]);
            && TypesOk(SCHEMA) && Within(true, t, Load(true, t, Run(SCHEMA, full)))
            && Accepts(SCHEMA, Run(SCHEMA, full), data)
            && !Within(true, t, Load(true, t, Run(SCHEMA, full + [data])))
  {
    var full, data := Rep(LIMIT, Sent([Slot(0)])), Sent([Null]);
    SchemaOk();
    hide LIMIT, Rep, Sent, Run, Lengths, Accepts, Load, Within, Built, TypeOk, Usable;
    Filled(LIMIT);
    NullMore(full, LIMIT);
    BatchIsBuilt(SCHEMA, full);
    BatchIsBuilt(SCHEMA, full + [data]);
    LengthsWithin(Run(SCHEMA, full));
    LengthsWithin(Run(SCHEMA, full + [data]));
  }

  /** After rows that leave one place in the first child, a row with one slot in each child is accepted
      in one order and refused in the other, although it decodes and everything in it fits. */
  lemma OrderCanRefuse()
    ensures var t, most := Struct(SCHEMA), Rep(LIMIT - 1, Sent([Slot(0)]));
            var b, late := Run(SCHEMA, most), [Slot(1), Slot(0)];
            && Accepts(SCHEMA, b, Sent([Slot(0), Slot(1)])) && !Accepts(SCHEMA, b, Sent(late))
            && DecodeRow(SCHEMA, Sent(late)) == Ok(Row(late), [])
            && Within(true, t, Load(true, t, AppendValue(b, StructV(Row(late)))))
  {
    var n, late := LIMIT - 1, [Slot(1), Slot(0)];
    var most := Rep(n, Sent([Slot(0)]));
    SchemaOk();
    SentDecodes(late);
    assert 2 <= LIMIT;
    hide LIMIT, Rep, Sent, Run, Lengths, Accepts, Load, Within, Built, TypeOk, AppendValue, DecodeRow, Row;
    Filled(n);
    TwoMore(most, n, 0, 1);
    TwoMore(most, n, 1, 0);
    BatchIsBuilt(SCHEMA, most);
    Appending(Run(SCHEMA, most), late);
    LengthsWithin(AppendValue(Run(SCHEMA, most), StructV(Row(late))));
  }
}
