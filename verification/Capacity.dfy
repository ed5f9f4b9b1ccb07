/** When the validation pass refuses a row, and what its acceptance means for the columns.

    The pass never touches a column: it adds up charges in `pending` and compares each partial sum
    with what the column holds.  For utf8, binary, list and map columns that comes to the total.  A
    dense union keeps one counter for all its children and compares it with the child of the moment,
    so there the order of the slots counts, and nulls, which are not counted, can break the limit. */
module Capacity {
  import opened RowTypes
  import opened Columns
  import opened Builders
  import opened Budget
  import opened Leaks

  /** Node kinds with 32-bit offsets. */
  predicate Budgeted(t: Type)
  {
    match t
    case VarLen(budgeted) => budgeted
    case List(large, _) => !large
    case Map(_, _) => true
    case Union(dense, _, _) => dense
    case _ => false
  }

  /** No budget is exceeded; with `dense` set, no dense-union child is too long either. */
  ghost predicate Within(dense: bool, t: Type, x: Tally)
    decreases t
  {
    && (Budgeted(t) && !t.Union? ==> x.own <= LIMIT)
    && (dense ==> forall k | 0 <= k < |x.arms| :: x.arms[k] <= LIMIT)
    && forall k | 0 <= k < |Kids(t)| && k < |x.kids| :: Within(dense, Kids(t)[k], x.kids[k])
  }

  // ----- the running checks -----

  /** The check made when a value starts: held so far, plus pending, plus this value. */
  ghost predicate OwnPasses(t: Type, held: Tally, pending: nat, v: Value)
  {
    if t.Union? then
      t.dense && v.UnionV? ==>
        var arm := ChildId(t.codes, v.code);
        0 <= arm < |held.arms| ==> held.arms[arm] + pending + 1 <= LIMIT
    else
      Budgeted(t) ==> held.own + pending + OwnCharge(true, t, v) <= LIMIT
  }

  ghost predicate Passes(t: Type, held: Tally, p: Tally, v: Value)
    decreases t, 0
  {
    && OwnPasses(t, held, p.own, v)
    && forall k | 0 <= k < |Kids(t)| && k < |held.kids| && k < |p.kids| ::
         ElemsPass(Kids(t)[k], held.kids[k], p.kids[k], KidSlots(t, v, k))
  }

  ghost predicate SlotPasses(t: Type, held: Tally, p: Tally, v: Value)
    decreases t, 1
  {
    v == Null || Passes(t, held, p, v)
  }

  ghost predicate ElemsPass(t: Type, held: Tally, p: Tally, vs: seq<Value>)
    decreases t, 2, |vs|
  {
    vs == [] || (SlotPasses(t, held, p, vs[0]) && ElemsPass(t, held, Add(p, ChargeSlot(true, t, vs[0])), vs[1..]))
  }

  // ----- passing implies fitting -----

  /** A union's `pending` counts the slots of all its arms together. */
  ghost predicate Covered(t: Type, p: Tally)
    decreases t
  {
    && (forall k | 0 <= k < |p.arms| :: p.arms[k] <= p.own)
    && forall k | 0 <= k < |Kids(t)| && k < |p.kids| :: Covered(Kids(t)[k], p.kids[k])
  }

  lemma {:induction false} CoveredAdd(t: Type, a: Tally, b: Tally)
    requires TallyOf(t, a) && TallyOf(t, b) && Covered(t, a) && Covered(t, b)
    ensures Covered(t, Add(a, b))
    decreases t
  {
    forall k | 0 <= k < |Kids(t)|
      ensures Covered(Kids(t)[k], Add(a.kids[k], b.kids[k]))
    {
      CoveredAdd(Kids(t)[k], a.kids[k], b.kids[k]);
    }
  }

  lemma {:induction false} CoveredZero(t: Type)
    ensures Covered(t, Zero(t))
    decreases t
  {
    forall k | 0 <= k < |Kids(t)|
      ensures Covered(Kids(t)[k], Zero(Kids(t)[k]))
    {
      CoveredZero(Kids(t)[k]);
    }
  }

  lemma {:induction false} ChargeCovered(t: Type, v: Value)
    ensures Covered(t, Charge(true, t, v)) && Covered(t, ChargeSlot(true, t, v))
    decreases t, 0
  {
    CoveredZero(t);
    forall k | 0 <= k < |Kids(t)|
      ensures Covered(Kids(t)[k], ChargeElems(true, Kids(t)[k], KidSlots(t, v, k)))
    {
      ElemsCovered(Kids(t)[k], KidSlots(t, v, k));
    }
  }

  lemma {:induction false} ElemsCovered(t: Type, vs: seq<Value>)
    ensures Covered(t, ChargeElems(true, t, vs))
    decreases t, 1, |vs|
  {
    hide Charge, ChargeSlot, Covered, TallyOf, Zero, Add;
    if vs == [] {
      CoveredZero(t);
    } else {
      ChargeCovered(t, vs[0]);
      ElemsCovered(t, vs[1..]);
      ChargeIsTally(true, t, vs[0]);
      ElemsAreTally(true, t, vs[1..]);
      CoveredAdd(t, ChargeSlot(true, t, vs[0]), ChargeElems(true, t, vs[1..]));
    }
  }

  lemma {:induction false} WithinSum(dense: bool, t: Type, a: Tally, b: Tally, c: Tally)
    requires TallyOf(t, a) && TallyOf(t, b) && TallyOf(t, c)
    requires Budgeted(t) && !t.Union? ==> a.own + b.own + c.own <= LIMIT
    requires dense ==> forall k | 0 <= k < |a.arms| :: a.arms[k] + b.arms[k] + c.arms[k] <= LIMIT
    requires forall k | 0 <= k < |Kids(t)| :: Within(dense, Kids(t)[k], Add(Add(a.kids[k], b.kids[k]), c.kids[k]))
    ensures Within(dense, t, Add(Add(a, b), c))
  {
  }

  lemma {:induction false} PassesFit(dense: bool, t: Type, held: Tally, p: Tally, v: Value)
    requires TallyOf(t, held) && TallyOf(t, p) && Covered(t, p) && HasType(t, v)
    requires Within(dense, t, Add(held, p)) && Passes(t, held, p, v)
    ensures Within(dense, t, Add(Add(held, p), Charge(true, t, v)))
    decreases t, 0
  {
    hide KidSlots, ElemsPass, ChargeElems, HasType, OwnPasses;
    var x, c := Add(held, p), Charge(true, t, v);
    assert forall k | 0 <= k < |p.arms| :: x.arms[k] == held.arms[k] + p.arms[k];
    OwnFits(dense, t, held, p, v);
    ChargeIsTally(true, t, v);
    forall k | 0 <= k < |Kids(t)|
      ensures Within(dense, Kids(t)[k], Add(Add(held.kids[k], p.kids[k]), c.kids[k]))
    {
      KidSlotsTyped(t, v, k);
      ElemsPassFit(dense, Kids(t)[k], held.kids[k], p.kids[k], KidSlots(t, v, k));
    }
    WithinSum(dense, t, held, p, c);
  }

  lemma {:induction false} OwnFits(dense: bool, t: Type, held: Tally, p: Tally, v: Value)
    requires |held.arms| == |p.arms| == ArmCount(t) && HasType(t, v)
    requires forall k | 0 <= k < |p.arms| :: p.arms[k] <= p.own && (dense ==> held.arms[k] + p.arms[k] <= LIMIT)
    requires OwnPasses(t, held, p.own, v)
    ensures Budgeted(t) && !t.Union? ==> held.own + p.own + OwnCharge(true, t, v) <= LIMIT
    ensures var c := ArmCharge(true, t, v);
            dense ==> forall k | 0 <= k < |held.arms| :: held.arms[k] + p.arms[k] + c[k] <= LIMIT
  {
    hide SlotsHaveType, SlotsHaveTypes;
    if t.Union? { assert v.UnionV?; }
  }

  lemma {:induction false} ElemsPassFit(dense: bool, t: Type, held: Tally, p: Tally, vs: seq<Value>)
    requires TallyOf(t, held) && TallyOf(t, p) && Covered(t, p) && SlotsHaveType(t, vs)
    requires Within(dense, t, Add(held, p)) && ElemsPass(t, held, p, vs)
    ensures Within(dense, t, Add(Add(held, p), ChargeElems(true, t, vs)))
    decreases t, 1, |vs|
  {
    hide TallyOf, Covered, HasType, Within, Passes, Add, Charge, Zero;
    AddTallies(t, held, p, p);
    if vs == [] {
      AddZero(t, Add(held, p));
    } else {
      var c, cs := ChargeSlot(true, t, vs[0]), ChargeElems(true, t, vs[1..]);
      ChargeIsTally(true, t, vs[0]);
      ElemsAreTally(true, t, vs[1..]);
      ChargeCovered(t, vs[0]);
      AddTallies(t, held, p, c);
      AddTallies(t, p, c, cs);
      AddTallies(t, Add(held, p), c, cs);
      CoveredAdd(t, p, c);
      if vs[0] == Null { AddZero(t, Add(held, p)); } else { PassesFit(dense, t, held, p, vs[0]); }
      ElemsPassFit(dense, t, held, Add(p, c), vs[1..]);
    }
  }

  // ----- the exact rule -----

  function NonNull(vs: seq<Value>): seq<Value>
  {
    if vs == [] then [] else if vs[0] == Null then NonNull(vs[1..]) else [vs[0]] + NonNull(vs[1..])
  }

  /** The non-null slots that reach the `k`-th child from the values `ws`, in the order of the walk. */
  function Reach(t: Type, ws: seq<Value>, k: nat): seq<Value>
  {
    if ws == [] then [] else NonNull(KidSlots(t, ws[0], k)) + Reach(t, ws[1..], k)
  }

  /** The `i`-th slot that a dense union gets in a row needs `i + 1` free places in its child, whichever
      children the slots before it went to.  `ws` are the node's non-null slots in the order of the walk
      and `p` the counters they start from. */
  ghost predicate InTime(t: Type, held: Tally, p: Tally, ws: seq<Value>)
    decreases t
  {
    && (t.Union? && t.dense ==> forall i | 0 <= i < |ws| :: ArmInTime(t, held, p.own + i, ws[i]))
    && forall k | 0 <= k < |Kids(t)| && k < |held.kids| && k < |p.kids| ::
         Kids(t)[k] < t && InTime(Kids(t)[k], held.kids[k], p.kids[k], Reach(t, ws, k))
  }

  ghost predicate ArmInTime(t: Type, held: Tally, before: nat, v: Value)
    requires t.Union?
  {
    v.UnionV? ==>
      var arm := ChildId(t.codes, v.code);
      0 <= arm < |held.arms| ==> held.arms[arm] + before + 1 <= LIMIT
  }

  lemma {:induction false} NonNullSplit(a: seq<Value>, b: seq<Value>)
    ensures NonNull(a + b) == NonNull(a) + NonNull(b)
    decreases |a|
  {
    if a == [] {
      assert a + b == b;
    } else {
      assert (a + b)[0] == a[0] && (a + b)[1..] == a[1..] + b;
      NonNullSplit(a[1..], b);
    }
  }

  lemma {:induction false} ReachSplit(t: Type, a: seq<Value>, b: seq<Value>, k: nat)
    ensures Reach(t, a + b, k) == Reach(t, a, k) + Reach(t, b, k)
    decreases |a|
  {
    hide KidSlots, NonNull;
    if a == [] {
      assert a + b == b;
    } else {
      assert (a + b)[0] == a[0] && (a + b)[1..] == a[1..] + b;
      ReachSplit(t, a[1..], b, k);
    }
  }

  lemma {:induction false} NonNullTyped(t: Type, vs: seq<Value>)
    requires SlotsHaveType(t, vs)
    ensures AllTyped(t, NonNull(vs))
    decreases |vs|
  {
    hide HasType;
    if vs != [] {
      assert SlotHasType(t, vs[0]);
      NonNullTyped(t, vs[1..]);
    }
  }

  ghost predicate AllTyped(t: Type, ws: seq<Value>) { forall i | 0 <= i < |ws| :: HasType(t, ws[i]) }

  lemma {:induction false} ReachTyped(t: Type, ws: seq<Value>, k: nat)
    requires AllTyped(t, ws) && k < |Kids(t)|
    ensures AllTyped(Kids(t)[k], Reach(t, ws, k))
    decreases |ws|
  {
    hide HasType, KidSlots, NonNull;
    if ws != [] {
      assert HasType(t, ws[0]);
      KidSlotsTyped(t, ws[0], k);
      NonNullTyped(Kids(t)[k], KidSlots(t, ws[0], k));
      ReachTyped(t, ws[1..], k);
    }
  }

  // ----- charges of several slots -----

  lemma {:induction false} ChargeSplit(t: Type, a: seq<Value>, b: seq<Value>)
    ensures ChargeElems(true, t, a + b) == Add(ChargeElems(true, t, a), ChargeElems(true, t, b))
    decreases |a|
  {
    hide ChargeSlot, Zero, Add, TallyOf;
    ElemsAreTally(true, t, b);
    if a == [] {
      assert a + b == b;
      AddZero(t, ChargeElems(true, t, b));
    } else {
      assert (a + b)[0] == a[0] && (a + b)[1..] == a[1..] + b;
      ChargeSplit(t, a[1..], b);
      ChargeIsTally(true, t, a[0]);
      ElemsAreTally(true, t, a[1..]);
      AddTallies(t, ChargeSlot(true, t, a[0]), ChargeElems(true, t, a[1..]), ChargeElems(true, t, b));
    }
  }

  lemma {:induction false} NullsAside(t: Type, vs: seq<Value>)
    ensures ChargeElems(true, t, NonNull(vs)) == ChargeElems(true, t, vs)
    decreases |vs|
  {
    hide Charge, Zero, Add, TallyOf;
    if vs != [] {
      NullsAside(t, vs[1..]);
      ElemsAreTally(true, t, vs[1..]);
      AddZero(t, ChargeElems(true, t, vs[1..]));
      if vs[0] != Null { assert ([vs[0]] + NonNull(vs[1..]))[1..] == NonNull(vs[1..]); }
    }
  }

  /** What a node's values charge its children is what the children's own slots charge them. */
  lemma {:induction false} ChargesReach(t: Type, ws: seq<Value>)
    requires AllTyped(t, ws)
    ensures var c := ChargeElems(true, t, ws);
            && |c.kids| == |Kids(t)| && (t.Union? && t.dense ==> c.own == |ws|)
            && forall k | 0 <= k < |Kids(t)| :: c.kids[k] == ChargeElems(true, Kids(t)[k], Reach(t, ws, k))
    decreases |ws|
  {
    hide KidSlots, HasType, Add, TallyOf, NonNull;
    if ws == [] {
      assert ChargeElems(true, t, ws) == Zero(t);
    } else {
      var v, c, cs := ws[0], Charge(true, t, ws[0]), ChargeElems(true, t, ws[1..]);
      OwnOne(t, v);
      ChargesReach(t, ws[1..]);
      AddUnfold(c, cs);
      forall k | 0 <= k < |Kids(t)|
        ensures Add(c, cs).kids[k] == ChargeElems(true, Kids(t)[k], Reach(t, ws, k))
      {
        NullsAside(Kids(t)[k], KidSlots(t, v, k));
        ChargeSplit(Kids(t)[k], NonNull(KidSlots(t, v, k)), Reach(t, ws[1..], k));
        assert AddAll(c.kids, cs.kids)[k] == Add(c.kids[k], cs.kids[k]);
      }
    }
  }

  lemma {:induction false} OwnOne(t: Type, v: Value)
    requires HasType(t, v)
    ensures v != Null && (t.Union? && t.dense ==> v.UnionV? && OwnCharge(true, t, v) == 1)
  {
  }

  // ----- the running checks follow the rule -----

  lemma {:induction false} InTimeSplit(t: Type, held: Tally, p: Tally, a: seq<Value>, b: seq<Value>)
    requires TallyOf(t, held) && TallyOf(t, p) && AllTyped(t, a)
    ensures InTime(t, held, p, a + b) <==> InTime(t, held, p, a) && InTime(t, held, Add(p, ChargeElems(true, t, a)), b)
    decreases t
  {
    hide HasType, KidSlots, Reach, ChargeElems, ArmInTime, LIMIT;
    ChargesReach(t, a);
    ElemsAreTally(true, t, a);
    AddTallies(t, p, ChargeElems(true, t, a), ChargeElems(true, t, a));
    var q := Add(p, ChargeElems(true, t, a));
    forall k | 0 <= k < |Kids(t)|
      ensures |q.kids| == |Kids(t)|
      ensures KidInTime(t, held, p, a + b, k) <==> KidInTime(t, held, p, a, k) && KidInTime(t, held, q, b, k)
    {
      ReachSplit(t, a, b, k);
      ReachTyped(t, a, k);
      InTimeSplit(Kids(t)[k], held.kids[k], p.kids[k], Reach(t, a, k), Reach(t, b, k));
    }
    InTimeOwn(t, held, p.own, q.own, a, b);
    InTimeParts(t, held, p, a + b);
    InTimeParts(t, held, p, a);
    InTimeParts(t, held, q, b);
  }

  ghost predicate OwnInTime(t: Type, held: Tally, own: nat, ws: seq<Value>)
  {
    t.Union? && t.dense ==> forall i | 0 <= i < |ws| :: ArmInTime(t, held, own + i, ws[i])
  }

  lemma InTimeOwn(t: Type, held: Tally, own: nat, after: nat, a: seq<Value>, b: seq<Value>)
    requires t.Union? && t.dense ==> after == own + |a|
    ensures OwnInTime(t, held, own, a + b) <==> OwnInTime(t, held, own, a) && OwnInTime(t, held, after, b)
  {
    hide ArmInTime;
    if t.Union? && t.dense {
      if OwnInTime(t, held, own, a + b) {
        forall i | 0 <= i < |a| ensures ArmInTime(t, held, own + i, a[i]) { assert (a + b)[i] == a[i]; }
        forall i | 0 <= i < |b| ensures ArmInTime(t, held, after + i, b[i]) { assert (a + b)[|a| + i] == b[i]; }
      }
      if OwnInTime(t, held, own, a) && OwnInTime(t, held, after, b) {
        forall i | 0 <= i < |a + b|
          ensures ArmInTime(t, held, own + i, (a + b)[i])
        {
          if i >= |a| { assert ArmInTime(t, held, after + (i - |a|), b[i - |a|]); }
        }
      }
    }
  }

  lemma {:induction false} InTimeParts(t: Type, held: Tally, p: Tally, ws: seq<Value>)
    requires |held.kids| == |p.kids| == |Kids(t)|
    ensures InTime(t, held, p, ws) <==> OwnInTime(t, held, p.own, ws) && forall k | 0 <= k < |Kids(t)| :: KidInTime(t, held, p, ws, k)
  {
    hide Reach, ArmInTime;
    if forall k | 0 <= k < |Kids(t)| :: KidInTime(t, held, p, ws, k) {
      forall k | 0 <= k < |Kids(t)|
        ensures InTime(Kids(t)[k], held.kids[k], p.kids[k], Reach(t, ws, k))
      {
        assert KidInTime(t, held, p, ws, k);
      }
    }
  }

  lemma {:induction false} WithinMono(dense: bool, t: Type, a: Tally, b: Tally)
    requires TallyOf(t, a) && TallyOf(t, b) && Within(dense, t, Add(a, b))
    ensures Within(dense, t, a)
    decreases t
  {
    var x := Add(a, b);
    forall k | 0 <= k < |a.arms| && dense
      ensures a.arms[k] <= LIMIT
    {
      assert x.arms[k] == a.arms[k] + b.arms[k];
    }
    forall k | 0 <= k < |Kids(t)|
      ensures Within(dense, Kids(t)[k], a.kids[k])
    {
      assert AddAll(a.kids, b.kids)[k] == Add(a.kids[k], b.kids[k]);
      assert Within(dense, Kids(t)[k], x.kids[k]);
      WithinMono(dense, Kids(t)[k], a.kids[k], b.kids[k]);
    }
  }

  /** One value: its own check, and the checks of its children's slots. */
  lemma {:induction false} PassesIff(t: Type, held: Tally, p: Tally, v: Value)
    requires TallyOf(t, held) && TallyOf(t, p) && Within(false, t, Add(held, p)) && HasType(t, v)
    ensures Passes(t, held, p, v) <==> Within(false, t, Add(Add(held, p), Charge(true, t, v))) && InTime(t, held, p, [v])
    decreases t, 0
  {
    hide HasType, InTime, OwnPasses, OwnInTime, Charge, Within, Passes, Add, TallyOf, KidPasses, KidWithin, KidInTime, LIMIT;
    var c := Charge(true, t, v);
    ChargeIsTally(true, t, v);
    ChargeOwn(t, v);
    AddTallies(t, held, p, c);
    var x, y := Add(held, p), Add(Add(held, p), c);
    SumShape(t, held, p);
    SumShape(t, x, c);
    forall k | 0 <= k < |Kids(t)|
      ensures KidPasses(t, held, p, v, k) <==> KidWithin(t, y, k) && KidInTime(t, held, p, [v], k)
    {
      KidPassesIff(t, held, p, v, k);
    }
    WithinParts(t, y);
    InTimeParts(t, held, p, [v]);
    OwnPassesIff(t, held, p, v);
    PassesParts(t, held, p, v);
  }

  ghost predicate KidPasses(t: Type, held: Tally, p: Tally, v: Value, k: nat)
    requires k < |Kids(t)| == |held.kids| == |p.kids|
  {
    ElemsPass(Kids(t)[k], held.kids[k], p.kids[k], KidSlots(t, v, k))
  }

  ghost predicate KidWithin(t: Type, x: Tally, k: nat)
    requires k < |Kids(t)| == |x.kids|
  {
    Within(false, Kids(t)[k], x.kids[k])
  }

  ghost predicate KidInTime(t: Type, held: Tally, p: Tally, ws: seq<Value>, k: nat)
    requires k < |Kids(t)| == |held.kids| == |p.kids|
  {
    InTime(Kids(t)[k], held.kids[k], p.kids[k], Reach(t, ws, k))
  }

  lemma {:induction false} KidPassesIff(t: Type, held: Tally, p: Tally, v: Value, k: nat)
    requires TallyOf(t, held) && TallyOf(t, p) && Within(false, t, Add(held, p)) && HasType(t, v) && k < |Kids(t)|
    ensures var y := Add(Add(held, p), Charge(true, t, v));
            && |held.kids| == |p.kids| == |y.kids| == |Kids(t)|
            && (KidPasses(t, held, p, v, k) <==> KidWithin(t, y, k) && KidInTime(t, held, p, [v], k))
    decreases Kids(t)[k], 2
  {
    hide KidSlots, ElemsPass, ChargeElems, HasType, InTime, Reach, NonNull, Charge, Within, Add, TallyOf;
    var c := Charge(true, t, v);
    ChargeIsTally(true, t, v);
    AddTallies(t, held, p, c);
    SumKid(t, held, p, k);
    SumKid(t, Add(held, p), c, k);
    WithinKid(t, Add(held, p), k);
    ChargeKid(t, v, k);
    KidSlotsTyped(t, v, k);
    ReachOne(t, v, k);
    ElemsPassIff(Kids(t)[k], held.kids[k], p.kids[k], KidSlots(t, v, k));
  }

  lemma {:induction false} SumKid(t: Type, a: Tally, b: Tally, k: nat)
    requires TallyOf(t, a) && TallyOf(t, b) && k < |Kids(t)|
    ensures |a.kids| == |b.kids| == |Add(a, b).kids| == |Kids(t)|
    ensures Add(a, b).kids[k] == Add(a.kids[k], b.kids[k]) && TallyOf(Kids(t)[k], a.kids[k]) && TallyOf(Kids(t)[k], b.kids[k])
  {
  }

  lemma {:induction false} SumShape(t: Type, a: Tally, b: Tally)
    requires TallyOf(t, a) && TallyOf(t, b)
    ensures |a.kids| == |b.kids| == |Add(a, b).kids| == |Kids(t)| && Add(a, b).own == a.own + b.own
  {
  }

  lemma {:induction false} WithinKid(t: Type, x: Tally, k: nat)
    requires Within(false, t, x) && k < |Kids(t)| == |x.kids|
    ensures Within(false, Kids(t)[k], x.kids[k])
  {
  }

  lemma {:induction false} WithinParts(t: Type, x: Tally)
    requires |x.kids| == |Kids(t)|
    ensures Within(false, t, x) <==> (Budgeted(t) && !t.Union? ==> x.own <= LIMIT) && forall k | 0 <= k < |Kids(t)| :: KidWithin(t, x, k)
  {
    hide LIMIT, Kids;
    if forall k | 0 <= k < |Kids(t)| :: KidWithin(t, x, k) {
      forall k | 0 <= k < |Kids(t)|
        ensures Within(false, Kids(t)[k], x.kids[k])
      {
        assert KidWithin(t, x, k);
      }
    }
  }

  lemma {:induction false} ChargeKid(t: Type, v: Value, k: nat)
    requires k < |Kids(t)|
    ensures |Charge(true, t, v).kids| == |Kids(t)| && Charge(true, t, v).kids[k] == ChargeElems(true, Kids(t)[k], KidSlots(t, v, k))
  {
    hide ChargeElems, KidSlots;
  }

  lemma {:induction false} ChargeOwn(t: Type, v: Value)
    ensures Charge(true, t, v).own == OwnCharge(true, t, v)
  {
    hide ChargeElems, KidSlots;
  }

  lemma {:induction false} PassesParts(t: Type, held: Tally, p: Tally, v: Value)
    requires |held.kids| == |p.kids| == |Kids(t)|
    ensures Passes(t, held, p, v) <==> OwnPasses(t, held, p.own, v) && forall k | 0 <= k < |Kids(t)| :: KidPasses(t, held, p, v, k)
  {
    hide ElemsPass, KidSlots, OwnPasses, Kids;
    if forall k | 0 <= k < |Kids(t)| :: KidPasses(t, held, p, v, k) {
      forall k | 0 <= k < |Kids(t)|
        ensures ElemsPass(Kids(t)[k], held.kids[k], p.kids[k], KidSlots(t, v, k))
      {
        assert KidPasses(t, held, p, v, k);
      }
    }
  }

  lemma {:induction false} ReachOne(t: Type, v: Value, k: nat)
    ensures Reach(t, [v], k) == NonNull(KidSlots(t, v, k))
  {
    hide NonNull, KidSlots;
    assert [v][1..] == [] && Reach(t, [v][1..], k) == [];
    assert NonNull(KidSlots(t, v, k)) + [] == NonNull(KidSlots(t, v, k));
  }

  lemma {:induction false} OwnPassesIff(t: Type, held: Tally, p: Tally, v: Value)
    requires HasType(t, v)
    ensures OwnPasses(t, held, p.own, v) <==>
            && (Budgeted(t) && !t.Union? ==> held.own + p.own + OwnCharge(true, t, v) <= LIMIT)
            && OwnInTime(t, held, p.own, [v])
  {
    hide HasType, LIMIT;
    if t.Union? && t.dense { assert OwnInTime(t, held, p.own, [v]) <==> ArmInTime(t, held, p.own + 0, [v][0]); }
  }

  lemma {:induction false} ElemsPassIff(t: Type, held: Tally, p: Tally, vs: seq<Value>)
    requires TallyOf(t, held) && TallyOf(t, p) && Within(false, t, Add(held, p)) && SlotsHaveType(t, vs)
    ensures ElemsPass(t, held, p, vs)
        <==> Within(false, t, Add(Add(held, p), ChargeElems(true, t, vs))) && InTime(t, held, p, NonNull(vs))
    decreases t, 1, |vs|
  {
    hide TallyOf, HasType, Within, Passes, Add, Charge, Zero, InTime;
    AddTallies(t, held, p, p);
    if vs == [] {
      AddZero(t, Add(held, p));
      NothingInTime(t, held, p);
    } else {
      var v, c, cs := vs[0], ChargeSlot(true, t, vs[0]), ChargeElems(true, t, vs[1..]);
      ChargeIsTally(true, t, v);
      ElemsAreTally(true, t, vs[1..]);
      AddTallies(t, held, p, c);
      AddTallies(t, p, c, cs);
      AddTallies(t, Add(held, p), c, cs);
      if v == Null {
        AddZero(t, p);
        AddZero(t, cs);
        ElemsPassIff(t, held, p, vs[1..]);
      } else {
        PassesIff(t, held, p, v);
        OneCharge(t, v);
        InTimeSplit(t, held, p, [v], NonNull(vs[1..]));
        if Within(false, t, Add(Add(held, p), ChargeElems(true, t, vs))) { WithinMono(false, t, Add(Add(held, p), c), cs); }
        if Within(false, t, Add(held, Add(p, c))) { ElemsPassIff(t, held, Add(p, c), vs[1..]); }
      }
    }
  }

  lemma {:induction false} OneCharge(t: Type, v: Value)
    requires v != Null
    ensures ChargeElems(true, t, [v]) == Charge(true, t, v)
  {
    hide Charge, Zero, Add, TallyOf;
    assert [v][1..] == [] && ChargeElems(true, t, [v][1..]) == Zero(t);
    ChargeIsTally(true, t, v);
    AddZero(t, Charge(true, t, v));
  }

  lemma {:induction false} NothingInTime(t: Type, held: Tally, p: Tally)
    ensures InTime(t, held, p, [])
    decreases t
  {
    forall k | 0 <= k < |Kids(t)| && k < |held.kids| && k < |p.kids|
      ensures InTime(Kids(t)[k], held.kids[k], p.kids[k], Reach(t, [], k))
    {
      NothingInTime(Kids(t)[k], held.kids[k], p.kids[k]);
    }
  }

  /** The running checks accept a value exactly when every utf8, binary, list and map column has room for
      all of it and every slot of a dense union comes in time. */
  lemma {:induction false} CapacityIff(t: Type, held: Tally, v: Value)
    requires TallyOf(t, held) && Within(false, t, held) && HasType(t, v)
    ensures Passes(t, held, Zero(t), v) <==> Within(false, t, Add(held, Charge(true, t, v))) && InTime(t, held, Zero(t), [v])
  {
    hide *;
    ZeroIsTally(t);
    AddZero(t, held);
    PassesIff(t, held, Zero(t), v);
  }

  // ----- what acceptance means for the columns -----

  /** The two tallies agree on everything but dense unions. */
  ghost predicate Same(t: Type, a: Tally, b: Tally)
    decreases t
  {
    && (t.Union? || a.own == b.own) && |a.kids| == |b.kids| == |Kids(t)|
    && forall k | 0 <= k < |Kids(t)| :: Same(Kids(t)[k], a.kids[k], b.kids[k])
  }

  lemma {:induction false} SameWithin(t: Type, a: Tally, b: Tally)
    requires Same(t, a, b) && Within(false, t, a)
    ensures Within(false, t, b)
    decreases t
  {
    forall k | 0 <= k < |Kids(t)|
      ensures Within(false, Kids(t)[k], b.kids[k])
    {
      SameWithin(Kids(t)[k], a.kids[k], b.kids[k]);
    }
  }

  lemma {:induction false} SameAdd(t: Type, a: Tally, a': Tally, b: Tally, b': Tally)
    requires Same(t, a, a') && Same(t, b, b')
    ensures Same(t, Add(a, b), Add(a', b'))
    decreases t
  {
    forall k | 0 <= k < |Kids(t)|
      ensures Same(Kids(t)[k], Add(a.kids[k], b.kids[k]), Add(a'.kids[k], b'.kids[k]))
    {
      SameAdd(Kids(t)[k], a.kids[k], a'.kids[k], b.kids[k], b'.kids[k]);
    }
  }

  lemma {:induction false} SameLoads(t: Type, b: Buf)
    requires TypeOk(t) && Built(t, b)
    ensures Same(t, Load(true, t, b), Load(false, t, b)) && Same(t, Load(false, t, b), Load(true, t, b))
    decreases t
  {
    hide Built, TypeOk;
    KidsAreBuilt(t, b);
    forall k | 0 <= k < |Kids(t)|
      ensures Same(Kids(t)[k], Load(true, Kids(t)[k], BufKids(b)[k].buf), Load(false, Kids(t)[k], BufKids(b)[k].buf))
      ensures Same(Kids(t)[k], Load(false, Kids(t)[k], BufKids(b)[k].buf), Load(true, Kids(t)[k], BufKids(b)[k].buf))
    {
      SameLoads(Kids(t)[k], BufKids(b)[k].buf);
    }
  }

  lemma {:induction false} SameZero(t: Type)
    ensures Same(t, Zero(t), Zero(t))
    decreases t
  {
    forall k | 0 <= k < |Kids(t)|
      ensures Same(Kids(t)[k], Zero(Kids(t)[k]), Zero(Kids(t)[k]))
    {
      SameZero(Kids(t)[k]);
    }
  }

  lemma {:induction false} SameCharges(t: Type, v: Value)
    ensures Same(t, Charge(true, t, v), Charge(false, t, v))
    ensures Same(t, ChargeSlot(true, t, v), ChargeSlot(false, t, v))
    decreases t, 0
  {
    hide KidSlots, ChargeElems;
    SameZero(t);
    forall k | 0 <= k < |Kids(t)|
      ensures Same(Kids(t)[k], ChargeElems(true, Kids(t)[k], KidSlots(t, v, k)),
                   ChargeElems(false, Kids(t)[k], KidSlots(t, v, k)))
    {
      SameElemCharges(Kids(t)[k], KidSlots(t, v, k));
    }
  }

  lemma {:induction false} SameElemCharges(t: Type, vs: seq<Value>)
    ensures Same(t, ChargeElems(true, t, vs), ChargeElems(false, t, vs))
    decreases t, 1, |vs|
  {
    hide Same, Charge, ChargeSlot, Zero, Add;
    if vs == [] {
      SameZero(t);
    } else {
      SameCharges(t, vs[0]);
      SameElemCharges(t, vs[1..]);
      SameAdd(t, ChargeSlot(true, t, vs[0]), ChargeSlot(false, t, vs[0]),
              ChargeElems(true, t, vs[1..]), ChargeElems(false, t, vs[1..]));
    }
  }

  lemma {:induction false} HeldEitherWay(dense: bool, t: Type, b: Buf)
    requires TypeOk(t) && Built(t, b) && Within(dense, t, Load(dense, t, b))
    ensures Within(dense, t, Load(true, t, b))
  {
    hide *;
    if !dense {
      SameLoads(t, b);
      SameWithin(t, Load(false, t, b), Load(true, t, b));
    }
  }

  lemma {:induction false} GrownEitherWay(dense: bool, t: Type, b: Buf, v: Value)
    requires TypeOk(t) && Built(t, b) && Within(dense, t, Add(Load(true, t, b), Charge(true, t, v)))
    ensures Within(dense, t, Add(Load(dense, t, b), Charge(dense, t, v)))
  {
    hide *;
    if !dense {
      SameLoads(t, b);
      SameCharges(t, v);
      SameAdd(t, Load(true, t, b), Load(false, t, b), Charge(true, t, v), Charge(false, t, v));
      SameWithin(t, Add(Load(true, t, b), Charge(true, t, v)), Add(Load(false, t, b), Charge(false, t, v)));
    }
  }

  /** An accepted value leaves every column within its limit: utf8, binary, list and map columns
      always, dense-union children when no null reaches a dense union. */
  lemma {:induction false} AcceptedFits(dense: bool, t: Type, b: Buf, v: Value)
    requires TypeOk(t) && Built(t, b) && HasType(t, v) && LeakFree(dense, t, v)
    requires Within(dense, t, Load(dense, t, b)) && Passes(t, Load(true, t, b), Zero(t), v)
    ensures Within(dense, t, Load(dense, t, AppendValue(b, v)))
  {
    hide *;
    HeldEitherWay(dense, t, b);
    LoadIsTally(true, t, b);
    ZeroIsTally(t);
    CoveredZero(t);
    AddZero(t, Load(true, t, b));
    PassesFit(dense, t, Load(true, t, b), Zero(t), v);
    GrownEitherWay(dense, t, b, v);
    ValueIsCharged(dense, t, b, v);
  }

  /** Exactly when an accepted value leaves the dense-union children within their limit too: nulls are
      not charged, so it takes the room for all that the value really adds. */
  lemma {:induction false} AcceptedFitsIff(t: Type, b: Buf, v: Value)
    requires TypeOk(t) && Built(t, b) && HasType(t, v)
    requires Within(false, t, Load(true, t, b)) && Passes(t, Load(true, t, b), Zero(t), v)
    ensures Within(false, t, Load(true, t, AppendValue(b, v)))
    ensures Within(true, t, Load(true, t, AppendValue(b, v))) <==> ArmsWithin(t, Add(Load(true, t, b), Growth(true, t, v)))
  {
    hide *;
    SameLoads(t, b);
    SameWithin(t, Load(true, t, b), Load(false, t, b));
    NothingLeaks(t, v);
    AcceptedFits(false, t, b, v);
    AppendedIsBuilt(t, b, v);
    SameLoads(t, AppendValue(b, v));
    SameWithin(t, Load(false, t, AppendValue(b, v)), Load(true, t, AppendValue(b, v)));
    ValueTakes(true, t, b, v);
    WithinIsBoth(t, Load(true, t, AppendValue(b, v)));
  }

  /** No dense-union child is too long. */
  ghost predicate ArmsWithin(t: Type, x: Tally)
    decreases t
  {
    && (forall k | 0 <= k < |x.arms| :: x.arms[k] <= LIMIT)
    && forall k | 0 <= k < |Kids(t)| && k < |x.kids| :: ArmsWithin(Kids(t)[k], x.kids[k])
  }

  lemma {:induction false} WithinIsBoth(t: Type, x: Tally)
    ensures Within(true, t, x) <==> Within(false, t, x) && ArmsWithin(t, x)
    decreases t
  {
    forall k | 0 <= k < |Kids(t)| && k < |x.kids|
      ensures Within(true, Kids(t)[k], x.kids[k]) <==> Within(false, Kids(t)[k], x.kids[k]) && ArmsWithin(Kids(t)[k], x.kids[k])
    {
      WithinIsBoth(Kids(t)[k], x.kids[k]);
    }
  }

  lemma {:induction false} AppendedIsBuilt(t: Type, b: Buf, v: Value)
    requires TypeOk(t) && Built(t, b) && HasType(t, v)
    ensures Built(t, AppendValue(b, v))
  {
    hide AppendValue, TypeOk, Built, ValueAt, HasType;
    ValueAppended(t, b, v);
  }
}
