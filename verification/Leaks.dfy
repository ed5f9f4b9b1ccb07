/** The gap between what a value takes and what it is charged: nulls that reach a dense union. */
module Leaks {
  import opened RowTypes
  import opened Columns
  import opened Builders
  import opened Budget

  /** A null slot of this type takes a child slot of some dense union. */
  predicate NullsReachDense(t: Type)
  {
    match t
    case Struct(ts) => exists k | 0 <= k < |ts| :: NullsReachDense(ts[k])
    case FixedSizeList(_, e) => NullsReachDense(e)
    case Union(d, _, arms) => d || exists k | 0 <= k < |arms| :: NullsReachDense(arms[k])
    case _ => false
  }

  ghost predicate Free(dense: bool, t: Type) { !dense || !NullsReachDense(t) }

  /** Every slot that takes room in some column is charged for it: no null reaches a dense union. */
  ghost predicate LeakFree(dense: bool, t: Type, v: Value)
    decreases t, 4
  {
    forall k | 0 <= k < |Kids(t)| :: KidLeakFree(dense, t, v, k)
  }

  ghost predicate KidLeakFree(dense: bool, t: Type, v: Value, k: nat)
    requires k < |Kids(t)|
    decreases t, 3
  {
    ElemsLeakFree(dense, Kids(t)[k], KidSlots(t, v, k))
  }

  ghost predicate SlotLeakFree(dense: bool, t: Type, v: Value)
    decreases t, 5
  {
    if v == Null then Free(dense, t) else LeakFree(dense, t, v)
  }

  ghost predicate ElemsLeakFree(dense: bool, t: Type, vs: seq<Value>)
    decreases t, 6
  {
    forall i | 0 <= i < |vs| :: SlotLeakFree(dense, t, vs[i])
  }

  /** Uncounted dense unions cannot leak. */
  lemma {:induction false} NothingLeaks(t: Type, v: Value)
    ensures LeakFree(false, t, v)
    decreases t
  {
    hide KidSlots;
    forall k | 0 <= k < |Kids(t)|
      ensures KidLeakFree(false, t, v, k)
    {
      forall i | 0 <= i < |KidSlots(t, v, k)|
        ensures SlotLeakFree(false, Kids(t)[k], KidSlots(t, v, k)[i])
      {
        NothingLeaks(Kids(t)[k], KidSlots(t, v, k)[i]);
      }
    }
  }

  // ----- comparing tallies -----

  /** Every counter of `a` is at least that of `b`. */
  ghost predicate Above(t: Type, a: Tally, b: Tally)
    decreases t
  {
    && |a.arms| == |b.arms| == ArmCount(t) && |a.kids| == |b.kids| == |Kids(t)|
    && a.own >= b.own && (forall k | 0 <= k < |a.arms| :: a.arms[k] >= b.arms[k])
    && forall k | 0 <= k < |a.kids| :: Kids(t)[k] < t && Above(Kids(t)[k], a.kids[k], b.kids[k])
  }

  lemma {:induction false} AboveZero(t: Type, p: Tally)
    requires TallyOf(t, p)
    ensures Above(t, p, Zero(t))
    decreases t
  {
    forall k | 0 <= k < |Kids(t)|
      ensures Above(Kids(t)[k], p.kids[k], Zero(Kids(t)[k]))
    {
      AboveZero(Kids(t)[k], p.kids[k]);
    }
  }

  /** Sums keep the order, and equal sums have equal parts. */
  lemma {:induction false} AboveAdd(t: Type, a: Tally, a': Tally, b: Tally, b': Tally)
    requires Above(t, a, a') && Above(t, b, b')
    ensures Above(t, Add(a, b), Add(a', b'))
    ensures Add(a, b) == Add(a', b') <==> a == a' && b == b'
    decreases t
  {
    var x, y := Add(a, b), Add(a', b');
    forall k | 0 <= k < |Kids(t)|
      ensures Above(Kids(t)[k], x.kids[k], y.kids[k])
      ensures x.kids[k] == y.kids[k] <==> a.kids[k] == a'.kids[k] && b.kids[k] == b'.kids[k]
    {
      AboveAdd(Kids(t)[k], a.kids[k], a'.kids[k], b.kids[k], b'.kids[k]);
    }
    if x == y {
      forall k | 0 <= k < |a.arms|
        ensures a.arms[k] == a'.arms[k] && b.arms[k] == b'.arms[k]
      {
        assert x.arms[k] == a.arms[k] + b.arms[k] && y.arms[k] == a'.arms[k] + b'.arms[k];
      }
      assert a.arms == a'.arms && b.arms == b'.arms && a.kids == a'.kids && b.kids == b'.kids;
    }
  }

  // ----- nulls and empties -----

  lemma {:induction false} ReachesKid(t: Type)
    ensures NullsReachDense(t) <==>
            (t.Union? && t.dense) || exists k | 0 <= k < |Kids(t)| :: PassedDown(t, 0, k).Some? && NullsReachDense(Kids(t)[k])
  {
    match t
    case Struct(ts) => assert Kids(t) == ts;
    case FixedSizeList(_, e) => assert Kids(t)[0] == e;
    case Union(_, _, arms) => assert Kids(t) == arms;
    case _ =>
  }

  lemma PassesAlike(t: Type, n: nat, k: nat)
    ensures PassedDown(t, n, k).Some? == PassedDown(t, 0, k).Some?
  {
  }

  lemma {:induction false} DenseTakes(t: Type, n: nat)
    requires TypeOk(t)
    ensures RunSlots(false, t, n) == 0 && RunArms(false, t) == Zero(t).arms
    ensures t.Union? && t.dense <==> RunArms(true, t) != Zero(t).arms
    ensures !(t.Union? && t.dense) ==> RunSlots(true, t, n) == 0
  {
    if t.Union? && t.dense {
      assert RunArms(true, t)[0] == 1;
      assert Zero(t).arms[0] == 0;
    }
  }

  /** Empty values take nothing exactly when no dense union is below. */
  lemma {:induction false} EmptiesAreFreeIff(dense: bool, t: Type, n: nat)
    requires TypeOk(t)
    ensures EmptyGrowth(dense, t, n) == Zero(t) <==> Free(dense, t)
    decreases t
  {
    hide RunSlots, RunArms, PassedDown, NullsReachDense, TypeOk;
    KidsOk(t);
    ReachesKid(t);
    DenseTakes(t, n);
    var g, z := EmptyGrowth(dense, t, n), Zero(t);
    forall k | 0 <= k < |Kids(t)|
      ensures g.kids[k] == z.kids[k] <==> (PassedDown(t, 0, k).Some? ==> Free(dense, Kids(t)[k]))
    {
      PassesAlike(t, n, k);
      match PassedDown(t, n, k)
      case None =>
      case Some(m) => EmptiesAreFreeIff(dense, Kids(t)[k], m);
    }
    SameTally(g, z);
  }

  lemma {:induction false} KidsOk(t: Type)
    requires TypeOk(t)
    ensures forall k | 0 <= k < |Kids(t)| :: TypeOk(Kids(t)[k])
  {
  }

  lemma SameTally(a: Tally, b: Tally)
    requires |a.kids| == |b.kids|
    ensures a == b <==> a.own == b.own && a.arms == b.arms && forall k | 0 <= k < |a.kids| :: a.kids[k] == b.kids[k]
  {
    if forall k | 0 <= k < |a.kids| :: a.kids[k] == b.kids[k] { assert a.kids == b.kids; }
  }

  /** The same for nulls. */
  lemma {:induction false} NullsAreFreeIff(dense: bool, t: Type, n: nat)
    requires TypeOk(t)
    ensures NullGrowth(dense, t, n) == Zero(t) <==> Free(dense, t)
    decreases t
  {
    hide RunSlots, RunArms, PassedDown, NullsReachDense, TypeOk, EmptyGrowth;
    KidsOk(t);
    ReachesKid(t);
    DenseTakes(t, n);
    var g, z := NullGrowth(dense, t, n), Zero(t);
    forall k | 0 <= k < |Kids(t)|
      ensures g.kids[k] == z.kids[k] <==> (PassedDown(t, 0, k).Some? ==> Free(dense, Kids(t)[k]))
    {
      PassesAlike(t, n, k);
      match PassedDown(t, n, k)
      case None =>
      case Some(m) =>
        EmptiesAreFreeIff(dense, Kids(t)[k], m);
        NullsAreFreeIff(dense, Kids(t)[k], m);
    }
    SameTally(g, z);
  }

  // ----- growth and charge -----

  lemma {:induction false} NullsChargeNothing(dense: bool, t: Type, vs: seq<Value>)
    requires AllNulls(vs)
    ensures ChargeElems(dense, t, vs) == Zero(t)
    decreases |vs|
  {
    hide Zero, Add;
    if vs != [] {
      NullsChargeNothing(dense, t, vs[1..]);
      ZeroIsTally(t);
      AddZero(t, Zero(t));
    }
  }

  /** A value is charged exactly what it takes if and only if no null of it reaches a dense union; it
      is never charged more. */
  lemma {:induction false} ChargedInFullIff(dense: bool, t: Type, v: Value)
    requires TypeOk(t)
    ensures Above(t, Growth(dense, t, v), Charge(dense, t, v))
    ensures Growth(dense, t, v) == Charge(dense, t, v) <==> LeakFree(dense, t, v)
    decreases t, 0
  {
    hide KidSlots, KidGrowth, ChargeElems, ElemsLeakFree, TypeOk, Growth, Charge, Above;
    KidsOk(t);
    var g, c := Growth(dense, t, v), Charge(dense, t, v);
    Parts(dense, t, v);
    forall k | 0 <= k < |Kids(t)|
      ensures Above(Kids(t)[k], g.kids[k], c.kids[k])
      ensures g.kids[k] == c.kids[k] <==> KidLeakFree(dense, t, v, k)
    {
      KidInFullIff(dense, t, Kids(t)[k], KidSlots(t, v, k));
    }
    SameTally(g, c);
    AboveParts(t, g, c);
  }

  lemma {:induction false} Parts(dense: bool, t: Type, v: Value)
    ensures var g, c := Growth(dense, t, v), Charge(dense, t, v);
            && g.own == c.own && g.arms == c.arms && |g.arms| == ArmCount(t) && |g.kids| == |c.kids| == |Kids(t)|
            && forall k | 0 <= k < |Kids(t)| ::
                 && g.kids[k] == KidGrowth(dense, t, Kids(t)[k], KidSlots(t, v, k))
                 && c.kids[k] == ChargeElems(dense, Kids(t)[k], KidSlots(t, v, k))
  {
    hide KidSlots, KidGrowth, ChargeElems, OwnCharge, ArmCharge;
  }

  lemma {:induction false} AboveParts(t: Type, a: Tally, b: Tally)
    requires a.own == b.own && a.arms == b.arms && |a.arms| == ArmCount(t) && |a.kids| == |b.kids| == |Kids(t)|
    requires forall k | 0 <= k < |Kids(t)| :: Above(Kids(t)[k], a.kids[k], b.kids[k])
    ensures Above(t, a, b)
  {
  }

  lemma {:induction false} KidInFullIff(dense: bool, t: Type, e: Type, vs: seq<Value>)
    requires TypeOk(e)
    ensures Above(e, KidGrowth(dense, t, e, vs), ChargeElems(dense, e, vs))
    ensures KidGrowth(dense, t, e, vs) == ChargeElems(dense, e, vs) <==> ElemsLeakFree(dense, e, vs)
    decreases e, 3
  {
    hide ElemsGrowth, NullGrowth, ChargeElems, Zero, Above, TypeOk, LeakFree;
    if (t.List? || t.FixedSizeList?) && vs != [] && forall i | 0 <= i < |vs| :: vs[i] == Null {
      NullsChargeNothing(dense, e, vs);
      NullsAreFreeIff(dense, e, |vs|);
      NullGrowthIsTally(dense, e, |vs|);
      AboveZero(e, NullGrowth(dense, e, |vs|));
      assert ElemsLeakFree(dense, e, vs) <==> Free(dense, e) by { assert SlotLeakFree(dense, e, vs[0]) <==> Free(dense, e); }
    } else {
      ElemsInFullIff(dense, e, vs);
    }
  }

  lemma {:induction false} ElemsInFullIff(dense: bool, t: Type, vs: seq<Value>)
    requires TypeOk(t)
    ensures Above(t, ElemsGrowth(dense, t, vs), ChargeElems(dense, t, vs))
    ensures ElemsGrowth(dense, t, vs) == ChargeElems(dense, t, vs) <==> ElemsLeakFree(dense, t, vs)
    decreases t, 2, |vs|
  {
    hide Growth, Charge, NullGrowth, Zero, Add, Above, TypeOk, LeakFree, Free, SlotGrowth, ChargeSlot, SlotLeakFree;
    if vs == [] {
      ZeroIsTally(t);
      AboveZero(t, Zero(t));
    } else {
      SlotInFullIff(dense, t, vs[0]);
      ElemsInFullIff(dense, t, vs[1..]);
      AboveAdd(t, SlotGrowth(dense, t, vs[0]), ChargeSlot(dense, t, vs[0]), ElemsGrowth(dense, t, vs[1..]), ChargeElems(dense, t, vs[1..]));
      LeakFreeSplit(dense, t, vs);
    }
  }

  lemma {:induction false} LeakFreeSplit(dense: bool, t: Type, vs: seq<Value>)
    requires vs != []
    ensures ElemsLeakFree(dense, t, vs) <==> SlotLeakFree(dense, t, vs[0]) && ElemsLeakFree(dense, t, vs[1..])
  {
    hide SlotLeakFree;
    if SlotLeakFree(dense, t, vs[0]) && ElemsLeakFree(dense, t, vs[1..]) {
      assert forall i | 0 < i < |vs| :: vs[i] == vs[1..][i - 1];
    }
  }

  lemma {:induction false} SlotInFullIff(dense: bool, t: Type, v: Value)
    requires TypeOk(t)
    ensures Above(t, SlotGrowth(dense, t, v), ChargeSlot(dense, t, v))
    ensures SlotGrowth(dense, t, v) == ChargeSlot(dense, t, v) <==> SlotLeakFree(dense, t, v)
    decreases t, 1
  {
    hide Growth, Charge, NullGrowth, Zero, Above, TypeOk, LeakFree, Free;
    if v == Null {
      NullsAreFreeIff(dense, t, 1);
      NullGrowthIsTally(dense, t, 1);
      AboveZero(t, NullGrowth(dense, t, 1));
    } else {
      ChargedInFullIff(dense, t, v);
    }
  }

  /** So the load of every node grows by exactly what the validation walk charged it, if and only if no
      null of the value reaches a counted dense union. */
  lemma {:induction false} ValueIsCharged(dense: bool, t: Type, b: Buf, v: Value)
    requires TypeOk(t) && Built(t, b) && HasType(t, v)
    ensures Load(dense, t, AppendValue(b, v)) == Add(Load(dense, t, b), Charge(dense, t, v)) <==> LeakFree(dense, t, v)
  {
    hide *;
    ValueTakes(dense, t, b, v);
    ChargedInFullIff(dense, t, v);
    LoadIsTally(dense, t, b);
    AboveSelf(t, Load(dense, t, b));
    AboveAdd(t, Load(dense, t, b), Load(dense, t, b), Growth(dense, t, v), Charge(dense, t, v));
  }

  /** utf8, binary, list and map columns grow by exactly what the walk charged, whatever the nulls. */
  lemma {:induction false} OffsetsAreCharged(t: Type, b: Buf, v: Value)
    requires TypeOk(t) && Built(t, b) && HasType(t, v)
    ensures Growth(false, t, v) == Charge(false, t, v)
    ensures Load(false, t, AppendValue(b, v)) == Add(Load(false, t, b), Charge(false, t, v))
  {
    hide *;
    NothingLeaks(t, v);
    ChargedInFullIff(false, t, v);
    ValueIsCharged(false, t, b, v);
  }

  lemma {:induction false} AboveSelf(t: Type, a: Tally)
    requires TallyOf(t, a)
    ensures Above(t, a, a)
    decreases t
  {
    forall k | 0 <= k < |Kids(t)|
      ensures Above(Kids(t)[k], a.kids[k], a.kids[k])
    {
      AboveSelf(Kids(t)[k], a.kids[k]);
    }
  }
}
