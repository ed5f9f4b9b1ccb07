/** The 32-bit offset budgets of a batch: what a row is charged before it is appended, what the
    columns hold, and the proof that the two agree.

    A tally has one counter per node of the type tree.  With `dense` set it also counts dense-union
    slots.  A null slot of a dense union, or of an ancestor that passes nulls down, takes a child slot
    but is never charged: `Growth` is what a value really takes, `Charge` what it is charged. */
module Budget {
  import opened RowTypes
  import opened Columns
  import opened Builders
  import opened RowReader

  /** Arrow's builder limit for 32-bit offsets. */
  const LIMIT: nat := 0x7FFF_FFFE

  /** `own` is a node's `pending`; `arms` counts the slots of each child of a dense union. */
  datatype Tally = Tally(own: nat, arms: seq<nat>, kids: seq<Tally>)

  /** The children that a node counts one by one. */
  function ArmCount(t: Type): nat { if t.Union? && t.dense then |t.arms| else 0 }

  function AddNats(a: seq<nat>, b: seq<nat>): (r: seq<nat>)
    ensures |r| == |a|
  {
    seq(|a|, k requires 0 <= k < |a| => if k < |b| then a[k] + b[k] else a[k])
  }

  /** The child types of a node. */
  function Kids(t: Type): (r: seq<Type>)
    ensures forall k | 0 <= k < |r| :: r[k] < t
  {
    match t
    case Struct(ts) => ts
    case List(_, e) => [e]
    case FixedSizeList(_, e) => [e]
    case Map(k, i) => [k, i]
    case Union(_, _, arms) => arms
    case _ => []
  }

  /** The child columns of a node. */
  function BufKids(b: Buf): seq<Arr>
  {
    match b
    case StructBuf(_, kids) => kids
    case ListBuf(_, _, kid) => [kid]
    case FslBuf(_, _, kid) => [kid]
    case MapBuf(_, _, keys, items) => [keys, items]
    case UnionBuf(_, _, _, _, kids) => kids
    case _ => []
  }

  function Add(a: Tally, b: Tally): Tally
    decreases a
  {
    Tally(a.own + b.own, AddNats(a.arms, b.arms), AddAll(a.kids, b.kids))
  }

  function AddAll(a: seq<Tally>, b: seq<Tally>): (r: seq<Tally>)
    ensures |r| == |a|
    decreases a
  {
    seq(|a|, k requires 0 <= k < |a| => if k < |b| then Add(a[k], b[k]) else a[k])
  }

  function Zero(t: Type): Tally
    decreases t, 1
  {
    Tally(0, Rep(ArmCount(t), 0), Zeros(t))
  }

  function Zeros(t: Type): (r: seq<Tally>)
    ensures |r| == |Kids(t)|
    decreases t, 0
  {
    var ts := Kids(t);
    seq(|ts|, k requires 0 <= k < |ts| && ts[k] < t => Zero(ts[k]))
  }

  /** A tally with one counter per node of `t`. */
  ghost predicate TallyOf(t: Type, p: Tally)
  {
    && |p.arms| == ArmCount(t) && |p.kids| == |Kids(t)|
    && forall k | 0 <= k < |p.kids| :: Kids(t)[k] < t && TallyOf(Kids(t)[k], p.kids[k])
  }

  lemma {:induction false} AddZero(t: Type, p: Tally)
    requires TallyOf(t, p)
    ensures Add(p, Zero(t)) == p && Add(Zero(t), p) == p && TallyOf(t, Zero(t))
    decreases t
  {
    forall k | 0 <= k < |p.kids|
      ensures var z := Zero(Kids(t)[k]); Add(p.kids[k], z) == p.kids[k] && Add(z, p.kids[k]) == p.kids[k]
      ensures TallyOf(Kids(t)[k], Zero(Kids(t)[k]))
    {
      AddZero(Kids(t)[k], p.kids[k]);
    }
  }

  lemma {:induction false} AddTallies(t: Type, a: Tally, b: Tally, c: Tally)
    requires TallyOf(t, a) && TallyOf(t, b) && TallyOf(t, c)
    ensures Add(Add(a, b), c) == Add(a, Add(b, c)) && TallyOf(t, Add(a, b))
    decreases t
  {
    forall k | 0 <= k < |a.kids|
      ensures Add(Add(a.kids[k], b.kids[k]), c.kids[k]) == Add(a.kids[k], Add(b.kids[k], c.kids[k]))
      ensures TallyOf(Kids(t)[k], Add(a.kids[k], b.kids[k]))
    {
      AddTallies(Kids(t)[k], a.kids[k], b.kids[k], c.kids[k]);
    }
  }

  // ----- what a value is charged -----

  /** The slots that a non-null value of type `t` puts into its `k`-th child column. */
  function KidSlots(t: Type, v: Value, k: nat): seq<Value>
  {
    match (t, v)
    case (Struct(_), StructV(vs)) => if k < |vs| then [vs[k]] else []
    case (List(_, _), ListV(vs)) => vs
    case (FixedSizeList(_, _), ListV(vs)) => vs
    case (Map(_, _), MapV(ks, vs)) => if k == 0 then ks else vs
    case (Union(d, codes, _), UnionV(c, x)) => if ChildId(codes, c) == k then [x] else if d then [] else [Null]
    case _ => []
  }

  function OwnCharge(dense: bool, t: Type, v: Value): nat
  {
    match (t, v)
    case (VarLen(budgeted), VarV(data)) => if budgeted then |data| else 0
    case (List(large, _), ListV(vs)) => if large then 0 else |vs|
    case (Map(_, _), MapV(ks, _)) => |ks|
    case (Union(d, _, _), UnionV(_, _)) => if d && dense then 1 else 0
    case _ => 0
  }

  function ArmCharge(dense: bool, t: Type, v: Value): (r: seq<nat>)
    ensures |r| == ArmCount(t)
  {
    seq(ArmCount(t), k requires 0 <= k < ArmCount(t) =>
      if dense && v.UnionV? && ChildId(t.codes, v.code) == k then 1 else 0)
  }

  function Charge(dense: bool, t: Type, v: Value): Tally
    decreases t, 0
  {
    var ts := Kids(t);
    Tally(OwnCharge(dense, t, v), ArmCharge(dense, t, v),
          seq(|ts|, k requires 0 <= k < |ts| && ts[k] < t => ChargeElems(dense, ts[k], KidSlots(t, v, k))))
  }

  /** Null slots are not charged. */
  function ChargeSlot(dense: bool, t: Type, v: Value): Tally
    decreases t, 1
  {
    if v == Null then Zero(t) else Charge(dense, t, v)
  }

  function ChargeElems(dense: bool, t: Type, vs: seq<Value>): Tally
    decreases t, 2, |vs|
  {
    if vs == [] then Zero(t) else Add(ChargeSlot(dense, t, vs[0]), ChargeElems(dense, t, vs[1..]))
  }

  lemma {:induction false} ChargeIsTally(dense: bool, t: Type, v: Value)
    ensures TallyOf(t, Charge(dense, t, v)) && TallyOf(t, ChargeSlot(dense, t, v))
    decreases t, 0
  {
    hide ChargeElems, Zero, KidSlots, OwnCharge, ArmCharge;
    ZeroIsTally(t);
    forall k | 0 <= k < |Kids(t)|
      ensures TallyOf(Kids(t)[k], ChargeElems(dense, Kids(t)[k], KidSlots(t, v, k)))
    {
      ElemsAreTally(dense, Kids(t)[k], KidSlots(t, v, k));
    }
  }

  lemma {:induction false} ZeroIsTally(t: Type)
    ensures TallyOf(t, Zero(t))
    decreases t
  {
    forall k | 0 <= k < |Kids(t)|
      ensures TallyOf(Kids(t)[k], Zero(Kids(t)[k]))
    {
      ZeroIsTally(Kids(t)[k]);
    }
  }

  lemma {:induction false} ElemsAreTally(dense: bool, t: Type, vs: seq<Value>)
    ensures TallyOf(t, ChargeElems(dense, t, vs))
    decreases t, 1, |vs|
  {
    hide Charge, TallyOf, Zero, Add;
    if vs == [] {
      ZeroIsTally(t);
    } else {
      var x, y := ChargeSlot(dense, t, vs[0]), ChargeElems(dense, t, vs[1..]);
      ChargeIsTally(dense, t, vs[0]);
      ElemsAreTally(dense, t, vs[1..]);
      AddTallies(t, x, y, y);
    }
  }

  // ----- what the columns hold -----

  function OwnLoad(dense: bool, t: Type, b: Buf): nat
  {
    match (t, b)
    case (VarLen(budgeted), VarBuf(_, _, data)) => if budgeted then |data| else 0
    case (List(large, _), ListBuf(_, _, kid)) => if large then 0 else kid.len
    case (Map(_, _), MapBuf(_, _, _, items)) => items.len
    case (Union(d, _, _), UnionBuf(_, _, ids, _, _)) => if d && dense then |ids| else 0
    case _ => 0
  }

  function ArmLoad(dense: bool, t: Type, b: Buf): (r: seq<nat>)
    ensures |r| == ArmCount(t)
  {
    seq(ArmCount(t), k requires 0 <= k < ArmCount(t) => if dense && k < |BufKids(b)| then BufKids(b)[k].len else 0)
  }

  function Load(dense: bool, t: Type, b: Buf): Tally
    decreases t
  {
    var ts, bs := Kids(t), BufKids(b);
    Tally(OwnLoad(dense, t, b), ArmLoad(dense, t, b),
          if |ts| != |bs| then []
          else seq(|ts|, k requires 0 <= k < |ts| && ts[k] < t => Load(dense, ts[k], bs[k].buf)))
  }

  lemma {:induction false} KidsAreBuilt(t: Type, b: Buf)
    requires TypeOk(t) && Built(t, b)
    ensures |BufKids(b)| == |Kids(t)|
    ensures forall k | 0 <= k < |Kids(t)| ::
              TypeOk(Kids(t)[k]) && KidBuilt(Kids(t)[k], BufKids(b)[k]) && Built(Kids(t)[k], BufKids(b)[k].buf)
  {
  }

  lemma {:induction false} LoadIsTally(dense: bool, t: Type, b: Buf)
    requires TypeOk(t) && Built(t, b)
    ensures TallyOf(t, Load(dense, t, b))
    decreases t
  {
    hide Built, TypeOk;
    KidsAreBuilt(t, b);
    forall k | 0 <= k < |Kids(t)|
      ensures TallyOf(Kids(t)[k], Load(dense, Kids(t)[k], BufKids(b)[k].buf))
    {
      LoadIsTally(dense, Kids(t)[k], BufKids(b)[k].buf);
    }
  }

  // ----- what nulls and empty values take -----

  /** How many slots `n` null or empty slots of the parent add to its `k`-th child, if any. */
  function PassedDown(t: Type, n: nat, k: nat): Option<nat>
  {
    match t
    case Struct(_) => Some(n)
    case FixedSizeList(size, _) => Some(n * size)
    case Union(dense, _, _) => if !dense then Some(n) else if k == 0 then Some(1) else None
    case _ => None
  }

  /** A run of null or empty slots of a dense union shares one slot of its first child. */
  function RunSlots(dense: bool, t: Type, n: nat): nat { if dense && t.Union? && t.dense then n else 0 }

  function RunArms(dense: bool, t: Type): (r: seq<nat>)
    ensures |r| == ArmCount(t)
  {
    seq(ArmCount(t), k requires 0 <= k < ArmCount(t) => if dense && k == 0 then 1 else 0)
  }

  /** What `n` empty slots add to every counter of the tree. */
  function EmptyGrowth(dense: bool, t: Type, n: nat): Tally
    decreases t
  {
    var ts := Kids(t);
    Tally(RunSlots(dense, t, n), RunArms(dense, t),
          seq(|ts|, k requires 0 <= k < |ts| && ts[k] < t =>
            match PassedDown(t, n, k) case None => Zero(ts[k]) case Some(m) => EmptyGrowth(dense, ts[k], m)))
  }

  /** What `n` null slots add: a union passes nulls to its first child, everything else passes empties. */
  function NullGrowth(dense: bool, t: Type, n: nat): Tally
    decreases t
  {
    var ts := Kids(t);
    Tally(RunSlots(dense, t, n), RunArms(dense, t),
          seq(|ts|, k requires 0 <= k < |ts| && ts[k] < t =>
            match PassedDown(t, n, k)
            case None => Zero(ts[k])
            case Some(m) => if t.Union? && k == 0 then NullGrowth(dense, ts[k], m) else EmptyGrowth(dense, ts[k], m)))
  }

  lemma {:induction false} EmptiedKid(t: Type, b: Buf, n: nat, k: nat)
    requires TypeOk(t) && Built(t, b) && k < |Kids(t)|
    ensures |BufKids(AppendEmpties(b, n))| == |BufKids(b)| == |Kids(t)|
    ensures BufKids(AppendEmpties(b, n))[k] ==
            match PassedDown(t, n, k) { case None => BufKids(b)[k] case Some(m) => Whole(AppendEmpties(BufKids(b)[k].buf, m)) }
  {
    KidsAreBuilt(t, b);
    if b.StructBuf? || b.UnionBuf? { EmptyKidsAt(b.kids, n, k); }
  }

  lemma {:induction false} EmptyKidsAt(kids: seq<Arr>, n: nat, k: nat)
    requires k < |kids|
    ensures EmptyKids(kids, n)[k] == Whole(AppendEmpties(kids[k].buf, n))
  {
    hide AppendEmpties;
    assert EmptyKids(kids, n)[k] == EmptyKid(kids[k], n);
  }

  lemma {:induction false} NulledKid(t: Type, b: Buf, n: nat, k: nat)
    requires TypeOk(t) && Built(t, b) && k < |Kids(t)|
    ensures |BufKids(AppendNulls(b, n))| == |BufKids(b)| == |Kids(t)|
    ensures BufKids(AppendNulls(b, n))[k] ==
            match PassedDown(t, n, k) {
              case None => BufKids(b)[k]
              case Some(m) => Whole(if t.Union? && k == 0 then AppendNulls(BufKids(b)[k].buf, m)
                                    else AppendEmpties(BufKids(b)[k].buf, m))
            }
  {
    KidsAreBuilt(t, b);
    if b.StructBuf? {
      EmptyKidsAt(b.kids, n, k);
    } else if b.UnionBuf? && k > 0 {
      EmptyKidsAt(b.kids[1..], n, k - 1);
    }
  }

  lemma {:induction false} RunCounts(t: Type, b: Buf, n: nat)
    requires TypeOk(t) && Built(t, b)
    ensures Slots(AppendEmpties(b, n)) == Slots(AppendNulls(b, n)) == Slots(b) + n
  {
    hide AppendNulls, AppendEmpties, TypeOk, Built, ValueAt, Slots;
    EmptiesGrow(t, b, n);
    NullsAppended(t, b, n);
  }

  lemma {:induction false} RunOwn(dense: bool, t: Type, b: Buf, n: nat)
    requires TypeOk(t) && Built(t, b)
    ensures OwnLoad(dense, t, AppendEmpties(b, n)) == OwnLoad(dense, t, AppendNulls(b, n)) == OwnLoad(dense, t, b) + RunSlots(dense, t, n)
    ensures |BufKids(AppendNulls(b, n))| == |BufKids(AppendEmpties(b, n))| == |BufKids(b)| == |Kids(t)|
  {
    KidsAreBuilt(t, b);
  }

  /** A run of empties or nulls adds one slot to the first child of a dense union. */
  lemma {:induction false} RunArm(t: Type, b: Buf, n: nat, k: nat)
    requires TypeOk(t) && Built(t, b) && k < ArmCount(t)
    ensures |BufKids(AppendEmpties(b, n))| == |BufKids(AppendNulls(b, n))| == |BufKids(b)| == |Kids(t)| == ArmCount(t)
    ensures BufKids(AppendEmpties(b, n))[k].len == BufKids(AppendNulls(b, n))[k].len == BufKids(b)[k].len + if k == 0 then 1 else 0
  {
    hide AppendNulls, AppendEmpties, TypeOk, Built, BufKids, Slots;
    KidsAreBuilt(t, b);
    EmptiedKid(t, b, n, k);
    NulledKid(t, b, n, k);
    if k == 0 { RunCounts(Kids(t)[0], BufKids(b)[0].buf, 1); }
    WholeLength(Kids(t)[k], BufKids(b)[k]);
  }

  lemma {:induction false} RunArmsGrow(dense: bool, t: Type, b: Buf, n: nat)
    requires TypeOk(t) && Built(t, b)
    ensures ArmLoad(dense, t, AppendEmpties(b, n)) == ArmLoad(dense, t, AppendNulls(b, n)) == AddNats(ArmLoad(dense, t, b), RunArms(dense, t))
  {
    hide AppendNulls, AppendEmpties, TypeOk, Built, BufKids, Kids;
    forall k | 0 <= k < ArmCount(t)
      ensures |BufKids(AppendEmpties(b, n))| == |BufKids(AppendNulls(b, n))| == |BufKids(b)| == ArmCount(t)
      ensures BufKids(AppendEmpties(b, n))[k].len == BufKids(AppendNulls(b, n))[k].len == BufKids(b)[k].len + if k == 0 then 1 else 0
    {
      RunArm(t, b, n, k);
    }
  }

  lemma {:induction false} WholeLength(t: Type, a: Arr)
    requires KidBuilt(t, a)
    ensures a.len == Slots(a.buf)
  {
    hide Built, Slots;
  }

  lemma WholeBuf(b: Buf)
    ensures Whole(b).buf == b && Whole(b).len == Slots(b)
  {
  }

  /** `n` empty values add exactly `EmptyGrowth`, whatever the type. */
  lemma {:induction false} EmptiesTake(dense: bool, t: Type, b: Buf, n: nat)
    requires TypeOk(t) && Built(t, b)
    ensures Load(dense, t, AppendEmpties(b, n)) == Add(Load(dense, t, b), EmptyGrowth(dense, t, n))
    decreases t
  {
    hide AppendEmpties, AppendNulls, Built, TypeOk, BufKids, OwnLoad, ArmLoad, RunSlots, RunArms, Add, Zero, PassedDown;
    KidsAreBuilt(t, b);
    RunOwn(dense, t, b, n);
    RunArmsGrow(dense, t, b, n);
    var was, now, more := Load(dense, t, b), Load(dense, t, AppendEmpties(b, n)), EmptyGrowth(dense, t, n);
    forall k | 0 <= k < |Kids(t)|
      ensures now.kids[k] == Add(was.kids[k], more.kids[k])
    {
      EmptiedKid(t, b, n, k);
      var e, kid := Kids(t)[k], BufKids(b)[k].buf;
      match PassedDown(t, n, k)
      case None => KeptKid(dense, e, kid);
      case Some(m) =>
        EmptiesTake(dense, e, kid, m);
        WholeBuf(AppendEmpties(kid, m));
    }
    AddByParts(t, was, more, now);
  }

  lemma {:induction false} KeptKid(dense: bool, t: Type, b: Buf)
    requires TypeOk(t) && Built(t, b)
    ensures Add(Load(dense, t, b), Zero(t)) == Load(dense, t, b)
  {
    hide *;
    LoadIsTally(dense, t, b);
    AddZero(t, Load(dense, t, b));
  }

  /** `n` nulls add exactly `NullGrowth`, whatever the type. */
  lemma {:induction false} NullsTake(dense: bool, t: Type, b: Buf, n: nat)
    requires TypeOk(t) && Built(t, b)
    ensures Load(dense, t, AppendNulls(b, n)) == Add(Load(dense, t, b), NullGrowth(dense, t, n))
    decreases t
  {
    hide AppendEmpties, AppendNulls, Built, TypeOk, BufKids, OwnLoad, ArmLoad, RunSlots, RunArms, Add, Zero, PassedDown, EmptyGrowth;
    KidsAreBuilt(t, b);
    RunOwn(dense, t, b, n);
    RunArmsGrow(dense, t, b, n);
    var was, now, more := Load(dense, t, b), Load(dense, t, AppendNulls(b, n)), NullGrowth(dense, t, n);
    forall k | 0 <= k < |Kids(t)|
      ensures now.kids[k] == Add(was.kids[k], more.kids[k])
    {
      NulledKid(t, b, n, k);
      var e, kid := Kids(t)[k], BufKids(b)[k].buf;
      match PassedDown(t, n, k)
      case None => KeptKid(dense, e, kid);
      case Some(m) =>
        if t.Union? && k == 0 { NullsTake(dense, e, kid, m); } else { EmptiesTake(dense, e, kid, m); }
        WholeBuf(AppendEmpties(kid, m));
        WholeBuf(AppendNulls(kid, m));
    }
    AddByParts(t, was, more, now);
  }

  // ----- what a value takes -----

  /** What a non-null value adds to every counter of the tree: its own charge, and in its children
      whatever its slots take, nulls included. */
  function Growth(dense: bool, t: Type, v: Value): Tally
    decreases t, 0
  {
    var ts := Kids(t);
    Tally(OwnCharge(dense, t, v), ArmCharge(dense, t, v),
          seq(|ts|, k requires 0 <= k < |ts| && ts[k] < t => KidGrowth(dense, t, ts[k], KidSlots(t, v, k))))
  }

  function SlotGrowth(dense: bool, t: Type, v: Value): Tally
    decreases t, 1
  {
    if v == Null then NullGrowth(dense, t, 1) else Growth(dense, t, v)
  }

  function ElemsGrowth(dense: bool, t: Type, vs: seq<Value>): Tally
    decreases t, 2, |vs|
  {
    if vs == [] then Zero(t) else Add(SlotGrowth(dense, t, vs[0]), ElemsGrowth(dense, t, vs[1..]))
  }

  /** An all-null list body goes in with one call. */
  function KidGrowth(dense: bool, t: Type, e: Type, vs: seq<Value>): Tally
    decreases e, 3
  {
    if (t.List? || t.FixedSizeList?) && vs != [] && (forall i | 0 <= i < |vs| :: vs[i] == Null) then NullGrowth(dense, e, |vs|)
    else ElemsGrowth(dense, e, vs)
  }

  lemma {:induction false} EmptyGrowthIsTally(dense: bool, t: Type, n: nat)
    ensures TallyOf(t, EmptyGrowth(dense, t, n))
    decreases t
  {
    hide Zero, PassedDown;
    forall k | 0 <= k < |Kids(t)|
      ensures TallyOf(Kids(t)[k], EmptyGrowth(dense, t, n).kids[k])
    {
      ZeroIsTally(Kids(t)[k]);
      match PassedDown(t, n, k)
      case None =>
      case Some(m) => EmptyGrowthIsTally(dense, Kids(t)[k], m);
    }
  }

  lemma {:induction false} NullGrowthIsTally(dense: bool, t: Type, n: nat)
    ensures TallyOf(t, NullGrowth(dense, t, n))
    decreases t
  {
    hide Zero, PassedDown, EmptyGrowth;
    forall k | 0 <= k < |Kids(t)|
      ensures TallyOf(Kids(t)[k], NullGrowth(dense, t, n).kids[k])
    {
      ZeroIsTally(Kids(t)[k]);
      match PassedDown(t, n, k)
      case None =>
      case Some(m) =>
        EmptyGrowthIsTally(dense, Kids(t)[k], m);
        NullGrowthIsTally(dense, Kids(t)[k], m);
    }
  }

  lemma {:induction false} GrowthIsTally(dense: bool, t: Type, v: Value)
    ensures TallyOf(t, Growth(dense, t, v)) && TallyOf(t, SlotGrowth(dense, t, v))
    decreases t, 0
  {
    hide ElemsGrowth, NullGrowth, KidSlots, OwnCharge, ArmCharge, Kids;
    NullGrowthIsTally(dense, t, 1);
    forall k | 0 <= k < |Kids(t)|
      ensures TallyOf(Kids(t)[k], KidGrowth(dense, t, Kids(t)[k], KidSlots(t, v, k)))
    {
      NullGrowthIsTally(dense, Kids(t)[k], |KidSlots(t, v, k)|);
      ElemsGrowthIsTally(dense, Kids(t)[k], KidSlots(t, v, k));
    }
  }

  lemma {:induction false} ElemsGrowthIsTally(dense: bool, t: Type, vs: seq<Value>)
    ensures TallyOf(t, ElemsGrowth(dense, t, vs))
    decreases t, 1, |vs|
  {
    hide Growth, SlotGrowth, TallyOf, Zero, Add;
    if vs == [] {
      ZeroIsTally(t);
    } else {
      var x, y := SlotGrowth(dense, t, vs[0]), ElemsGrowth(dense, t, vs[1..]);
      GrowthIsTally(dense, t, vs[0]);
      ElemsGrowthIsTally(dense, t, vs[1..]);
      AddTallies(t, x, y, y);
    }
  }

  lemma {:induction false} KidSlotsTyped(t: Type, v: Value, k: nat)
    requires HasType(t, v) && k < |Kids(t)|
    ensures SlotsHaveType(Kids(t)[k], KidSlots(t, v, k))
  {
  }

  /** How a parent appends the slots of one child. */
  function KidAppend(t: Type, b: Buf, vs: seq<Value>): Buf
  {
    if t.List? || t.FixedSizeList? then AppendList(b, vs) else AppendElems(b, vs)
  }

  lemma {:induction false} OneAppend(b: Buf, v: Value)
    ensures AppendElems(b, [v]) == AppendSlot(b, v) && AppendElems(b, []) == b
  {
    hide AppendSlot;
    assert [v][1..] == [];
    assert AppendElems(AppendSlot(b, v), [v][1..]) == AppendSlot(b, v);
  }

  lemma {:induction false} AppendedKid(t: Type, b: Buf, v: Value, k: nat)
    requires TypeOk(t) && Built(t, b) && HasType(t, v) && k < |Kids(t)|
    ensures |BufKids(AppendValue(b, v))| == |BufKids(b)| == |Kids(t)|
    ensures BufKids(AppendValue(b, v))[k] == Whole(KidAppend(t, BufKids(b)[k].buf, KidSlots(t, v, k)))
  {
    hide AppendList, AppendElems, AppendNulls, NullKids, SlotsHaveType, SlotsHaveTypes, TypesOk, StartsOk;
    if t.Struct? { OneAppend(b.kids[k].buf, v.fields[k]); }
    if t.Union? { AppendedArm(t, b, v, k); }
  }

  lemma {:induction false} AppendedArm(t: Type, b: Buf, v: Value, k: nat)
    requires t.Union? && TypeOk(t) && Built(t, b) && HasType(t, v) && k < |Kids(t)|
    ensures |BufKids(AppendValue(b, v))| == |BufKids(b)| == |Kids(t)|
    ensures BufKids(AppendValue(b, v))[k] == Whole(KidAppend(t, BufKids(b)[k].buf, KidSlots(t, v, k)))
  {
    hide AppendList, AppendElems, AppendNulls, TypesOk;
    var kid := BufKids(b)[k].buf;
    OneAppend(kid, Null);
    OneAppend(kid, v.arm);
    HasTypeNotNull(t.arms[ChildId(t.codes, v.code)], v.arm);
  }

  lemma {:induction false} KidAppended(t: Type, e: Type, b: Buf, vs: seq<Value>)
    requires TypeOk(e) && Built(e, b) && SlotsHaveType(e, vs)
    ensures Built(e, KidAppend(t, b, vs)) && Slots(KidAppend(t, b, vs)) == Slots(b) + |vs|
  {
    hide AppendList, AppendElems, Built, ValueAt, SlotsHaveType, Slots;
    ListAppended(e, b, vs);
    ElemsAppended(e, b, vs);
  }

  lemma {:induction false} ValueCount(t: Type, b: Buf, v: Value)
    requires TypeOk(t) && Built(t, b) && HasType(t, v)
    ensures Slots(AppendValue(b, v)) == Slots(b) + 1
  {
    hide AppendValue, Built, HasType, TypeOk, ValueAt, Slots;
    ValueAppended(t, b, v);
  }

  /** Appending to a dense union touches only the chosen child. */
  lemma {:induction false} DenseKids(t: Type, b: Buf, v: Value)
    requires t.Union? && t.dense && TypeOk(t) && Built(t, b) && HasType(t, v)
    ensures var k := ChildId(t.codes, v.code);
            && 0 <= k < |t.arms| == |BufKids(b)|
            && BufKids(AppendValue(b, v)) == BufKids(b)[k := Whole(AppendValue(BufKids(b)[k].buf, v.arm))]
            && v.UnionV? && Slots(AppendValue(BufKids(b)[k].buf, v.arm)) == BufKids(b)[k].len + 1
  {
    hide AppendList, AppendElems, AppendNulls, NullKids, TypesOk;
    var k := ChildId(t.codes, v.code);
    KidsAreBuilt(t, b);
    ValueCount(t.arms[k], b.kids[k].buf, v.arm);
  }

  lemma {:induction false} ArmsAreCharged(dense: bool, t: Type, b: Buf, v: Value)
    requires TypeOk(t) && Built(t, b) && HasType(t, v)
    ensures ArmLoad(dense, t, AppendValue(b, v)) == AddNats(ArmLoad(dense, t, b), ArmCharge(dense, t, v))
  {
    hide AppendValue, BufKids, Built, HasType, TypeOk, Slots, ChildId;
    if t.Union? && t.dense { DenseKids(t, b, v); }
  }

  lemma {:induction false} KidsKept(t: Type, b: Buf, v: Value)
    requires TypeOk(t) && Built(t, b)
    ensures |BufKids(AppendValue(b, v))| == |Kids(t)|
  {
    hide AppendList, AppendElems, AppendNulls, AppendSlot, NullKids, AppendFields, TypesOk, StartsOk;
    KidsAreBuilt(t, b);
  }

  lemma {:induction false} OwnIsCharged(dense: bool, t: Type, b: Buf, v: Value)
    requires TypeOk(t) && Built(t, b) && HasType(t, v)
    ensures OwnLoad(dense, t, AppendValue(b, v)) == OwnLoad(dense, t, b) + OwnCharge(dense, t, v)
  {
    hide AppendList, AppendElems, AppendNulls, SlotsHaveType, SlotsHaveTypes, TypesOk, StartsOk;
    KidsAreBuilt(t, b);
    match t
    case List(_, e) =>
      KidSlotsTyped(t, v, 0);
      KidAppended(t, e, b.kid.buf, v.elems);
    case Map(_, i) =>
      KidSlotsTyped(t, v, 1);
      KidAppended(t, i, b.items.buf, v.items);
    case _ =>
  }

  /** Conservation, for every type and value: appending a value adds exactly its growth to the load of
      every node. */
  lemma {:induction false} ValueTakes(dense: bool, t: Type, b: Buf, v: Value)
    requires TypeOk(t) && Built(t, b) && HasType(t, v)
    ensures Load(dense, t, AppendValue(b, v)) == Add(Load(dense, t, b), Growth(dense, t, v))
    decreases t, 0
  {
    hide AppendValue, Built, HasType, TypeOk, KidSlots, KidAppend, OwnLoad, OwnCharge, ArmLoad, ArmCharge, KidGrowth, Add;
    KidsAreBuilt(t, b);
    OwnIsCharged(dense, t, b, v);
    ArmsAreCharged(dense, t, b, v);
    KidsKept(t, b, v);
    var b' := AppendValue(b, v);
    var was, more, now := Load(dense, t, b), Growth(dense, t, v), Load(dense, t, b');
    forall k | 0 <= k < |Kids(t)|
      ensures now.kids[k] == Add(was.kids[k], more.kids[k])
    {
      AppendedKid(t, b, v, k);
      KidSlotsTyped(t, v, k);
      KidTakes(dense, t, Kids(t)[k], BufKids(b)[k].buf, KidSlots(t, v, k));
      WholeBuf(KidAppend(t, BufKids(b)[k].buf, KidSlots(t, v, k)));
    }
    AddByParts(t, was, more, now);
  }

  lemma {:induction false} AddUnfold(a: Tally, b: Tally)
    ensures Add(a, b) == Tally(a.own + b.own, AddNats(a.arms, b.arms), AddAll(a.kids, b.kids))
  {
    hide AddAll;
  }

  lemma {:induction false} AddAllIs(a: seq<Tally>, b: seq<Tally>, c: seq<Tally>)
    requires |a| == |b| == |c| && forall k | 0 <= k < |c| :: c[k] == Add(a[k], b[k])
    ensures AddAll(a, b) == c
  {
    hide Add;
  }

  lemma {:induction false} AddByParts(t: Type, a: Tally, b: Tally, c: Tally)
    requires |a.kids| == |b.kids| == |c.kids| && c.own == a.own + b.own && c.arms == AddNats(a.arms, b.arms)
    requires forall k | 0 <= k < |c.kids| :: c.kids[k] == Add(a.kids[k], b.kids[k])
    ensures c == Add(a, b)
  {
    hide *;
    AddUnfold(a, b);
    AddAllIs(a.kids, b.kids, c.kids);
  }

  lemma {:induction false} KidTakes(dense: bool, t: Type, e: Type, b: Buf, vs: seq<Value>)
    requires TypeOk(e) && Built(e, b) && SlotsHaveType(e, vs)
    ensures Load(dense, e, KidAppend(t, b, vs)) == Add(Load(dense, e, b), KidGrowth(dense, t, e, vs))
    decreases e, 3
  {
    hide Load, Add, ElemsGrowth, NullGrowth, KidAppend, Built, TypeOk, SlotsHaveType;
    if (t.List? || t.FixedSizeList?) && vs != [] && forall i | 0 <= i < |vs| :: vs[i] == Null {
      NullRun(t, b, vs);
      NullsTake(dense, e, b, |vs|);
    } else {
      MixedRun(t, b, vs);
      ElemsTake(dense, e, b, vs);
    }
  }

  lemma {:induction false} NullRun(t: Type, b: Buf, vs: seq<Value>)
    requires (t.List? || t.FixedSizeList?) && vs != [] && forall i | 0 <= i < |vs| :: vs[i] == Null
    ensures KidAppend(t, b, vs) == AppendNulls(b, |vs|) && AllNulls(vs)
  {
    hide AppendNulls, AppendElems;
  }

  lemma {:induction false} MixedRun(t: Type, b: Buf, vs: seq<Value>)
    requires !((t.List? || t.FixedSizeList?) && vs != [] && forall i | 0 <= i < |vs| :: vs[i] == Null)
    ensures KidAppend(t, b, vs) == AppendElems(b, vs)
  {
    hide AppendNulls, AppendElems;
  }

  lemma {:induction false} SlotIsBuilt(t: Type, b: Buf, v: Value)
    requires TypeOk(t) && Built(t, b) && SlotHasType(t, v)
    ensures Built(t, AppendSlot(b, v))
  {
    hide TypeOk, Built, SlotHasType, AppendSlot, ValueAt;
    SlotAppended(t, b, v);
  }

  lemma {:induction false} ElemsTake(dense: bool, t: Type, b: Buf, vs: seq<Value>)
    requires TypeOk(t) && Built(t, b) && SlotsHaveType(t, vs)
    ensures Load(dense, t, AppendElems(b, vs)) == Add(Load(dense, t, b), ElemsGrowth(dense, t, vs))
    decreases t, 2, |vs|
  {
    hide Load, Add, Growth, SlotGrowth, Built, SlotHasType, TypeOk, TallyOf, Zero, AppendSlot;
    LoadIsTally(dense, t, b);
    if vs == [] {
      AddZero(t, Load(dense, t, b));
    } else {
      SlotIsBuilt(t, b, vs[0]);
      SlotTakes(dense, t, b, vs[0]);
      ElemsTake(dense, t, AppendSlot(b, vs[0]), vs[1..]);
      GrowthIsTally(dense, t, vs[0]);
      ElemsGrowthIsTally(dense, t, vs[1..]);
      AddTallies(t, Load(dense, t, b), SlotGrowth(dense, t, vs[0]), ElemsGrowth(dense, t, vs[1..]));
    }
  }

  lemma {:induction false} SlotTakes(dense: bool, t: Type, b: Buf, v: Value)
    requires TypeOk(t) && Built(t, b) && SlotHasType(t, v)
    ensures Load(dense, t, AppendSlot(b, v)) == Add(Load(dense, t, b), SlotGrowth(dense, t, v))
    decreases t, 1
  {
    hide Load, Add, Growth, NullGrowth, Built, HasType, TypeOk, AppendNulls, AppendValue;
    if v == Null { NullsTake(dense, t, b, 1); } else { ValueTakes(dense, t, b, v); }
  }
}
