/** The tree of column builders behind a batch, as objects that are appended to in place.

    A `Builder` stands for one Arrow array builder and the child builders it owns.  `Column` is its
    logical content; every method states which function of the old content the new one is. */
module BatchTree {
  import opened Wire
  import opened RowTypes
  import opened Columns
  import Builders
  import opened Budget

  /** Empty values for every child from `from` on. */
  ghost function EmptyTail(cs: seq<Arr>, from: nat, n: nat): (r: seq<Arr>)
    requires from <= |cs|
    ensures |r| == |cs|
  {
    if from == 0 then Builders.EmptyKids(cs, n) else cs[..from] + Builders.EmptyKids(cs[from..], n)
  }

  lemma {:induction false} EmptyTailAt(cs: seq<Arr>, from: nat, n: nat)
    requires from <= |cs|
    ensures forall k | 0 <= k < |cs| ::
              EmptyTail(cs, from, n)[k] == if k < from then cs[k] else Whole(Builders.AppendEmpties(cs[k].buf, n))
  {
    hide Builders.AppendEmpties;
    forall k | 0 <= k < |cs|
      ensures EmptyTail(cs, from, n)[k] == if k < from then cs[k] else Whole(Builders.AppendEmpties(cs[k].buf, n))
    {
      if k >= from {
        assert cs[from..][k - from] == cs[k];
        assert EmptyTail(cs, from, n)[k] == Builders.EmptyKid(cs[k], n);
      }
    }
  }

  lemma {:induction false} NulledUnion(dense: bool, codes: seq<nat>, ids: seq<nat>, places: seq<nat>, cs: seq<Arr>, n: nat)
    requires codes != [] && cs != []
    ensures Builders.AppendNulls(UnionBuf(dense, codes, ids, places, cs), n)
         == var kid := Whole(Builders.AppendNulls(cs[0].buf, if dense then 1 else n));
            UnionBuf(dense, codes, ids + Builders.Rep(n, codes[0]),
                     if dense then places + Builders.Rep(n, cs[0].len) else places,
                     if dense then cs[0 := kid] else EmptyTail(cs[0 := kid], 1, n))
  {
    hide Builders.AppendEmpties, Builders.EmptyKids;
    var kid := Whole(Builders.AppendNulls(cs[0].buf, n));
    assert cs[0 := kid][1..] == cs[1..] && cs[0 := kid][..1] == [kid];
  }

  class Builder {
    const t: Type
    const kids: seq<Builder>
    var valid: seq<bool>
    var bits: seq<bool>
    var raw: bytes
    var starts: seq<nat>
    var data: bytes
    var ids: seq<nat>
    var places: seq<nat>
    ghost const Repr: set<Builder>

    /** The tree of builders follows the type and no two parts of it share an object. */
    ghost predicate Ok()
      decreases t
    {
      && this in Repr && |kids| == |Kids(t)|
      && (forall k | 0 <= k < |kids| ::
            && kids[k].t == Kids(t)[k] && kids[k].t < t && kids[k].Ok()
            && kids[k].Repr <= Repr && this !in kids[k].Repr)
      && (forall i, j | 0 <= i < j < |kids| :: kids[i].Repr !! kids[j].Repr)
    }

    constructor (t: Type, kids: seq<Builder>)
      requires |kids| == |Kids(t)|
      requires forall k | 0 <= k < |kids| :: kids[k].t == Kids(t)[k] && kids[k].Ok()
      requires forall i, j | 0 <= i < j < |kids| :: kids[i].Repr !! kids[j].Repr
      ensures Ok() && this.t == t && this.kids == kids
      ensures Repr == {this} + set k, x | 0 <= k < |kids| && x in kids[k].Repr :: x
      ensures valid == bits == [] && raw == data == [] && starts == ids == places == []
    {
      this.t, this.kids := t, kids;
      valid, bits, raw, starts, data, ids, places := [], [], [], [], [], [], [];
      Repr := {this} + set k, x | 0 <= k < |kids| && x in kids[k].Repr :: x;
    }

    /** `ArrayBuilder::length`. */
    function Length(): nat
      reads this
    {
      if t.Union? then |ids| else |valid|
    }

    ghost function KidRepr(): set<Builder> { Repr - {this} }

    function KidColumns(): (r: seq<Arr>)
      requires Ok()
      reads KidRepr()
      ensures |r| == |kids|
      decreases t, 0
    {
      seq(|kids|, k requires 0 <= k < |kids| reads KidRepr() => Whole(kids[k].Column()))
    }

    function Column(): (b: Buf)
      requires Ok()
      reads Repr
      ensures Slots(b) == Length()
      decreases t, 1
    {
      var cs := KidColumns();
      match t
      case Bool => BoolBuf(valid, bits)
      case Fixed(w) => FixedBuf(valid, w, raw)
      case VarLen(_) => VarBuf(valid, starts, data)
      case Struct(_) => StructBuf(valid, cs)
      case List(_, _) => ListBuf(valid, starts, cs[0])
      case FixedSizeList(n, _) => FslBuf(valid, n, cs[0])
      case Map(_, _) => MapBuf(valid, starts, cs[0], cs[1])
      case Union(dense, codes, _) => UnionBuf(dense, codes, ids, places, cs)
    }

    lemma {:induction false} KidOk(k: nat)
      requires Ok() && TypeOk(t) && k < |kids|
      ensures kids[k].t == Kids(t)[k] && kids[k].t < t && TypeOk(kids[k].t)
      ensures kids[k].Ok() && kids[k].Repr <= KidRepr()
      ensures forall j | 0 <= j < |kids| && j != k :: kids[j].Repr !! kids[k].Repr
    {
    }

    lemma {:induction false} Shape()
      requires Ok() && TypeOk(t)
      ensures this in Repr && KidRepr() <= Repr && |kids| == |Kids(t)| && (t.Union? ==> |t.codes| == |kids| > 0)
      ensures forall k | 0 <= k < |kids| :: kids[k].Ok() && kids[k].Repr <= KidRepr() && this !in kids[k].Repr
    {
    }

    lemma {:induction false} KidColumnsAt()
      requires Ok()
      ensures |KidColumns()| == |kids|
      ensures forall k | 0 <= k < |kids| :: kids[k].Ok() && KidColumns()[k] == Whole(kids[k].Column())
    {
    }

    lemma {:induction false} KidColumnsAre(cs: seq<Arr>)
      requires Ok() && |cs| == |kids|
      requires forall k | 0 <= k < |kids| :: kids[k].Ok() && cs[k] == Whole(kids[k].Column())
      ensures KidColumns() == cs
    {
    }

    // ----- nulls and empty values -----

    /** The columns whose children get nothing from a null or an empty value. */
    method BlankLeaf(n: nat, x: bool)
      requires Ok() && TypeOk(t) && !t.Struct? && !t.FixedSizeList? && !t.Union?
      modifies this
      ensures Column() == if x then Builders.AppendEmpties(old(Column()), n) else Builders.AppendNulls(old(Column()), n)
    {
      hide Ok, KidColumns, TypeOk, Builders.EmptyKids;
      Shape();
      KidColumnsAt();
      valid := valid + Builders.Rep(n, x);
      match t
      case Bool => bits := bits + Builders.Rep(n, false);
      case Fixed(w) => raw := raw + Builders.ZeroRaw(n * w);
      case VarLen(_) => starts := starts + Builders.Rep(n, |data|);
      case List(_, _) => starts := starts + Builders.Rep(n, kids[0].Length());
      case Map(_, _) => starts := starts + Builders.Rep(n, kids[1].Length());
    }

    /** A struct and a fixed-size list give their children empty values either way. */
    method BlankNested(n: nat, x: bool)
      requires Ok() && TypeOk(t) && (t.Struct? || t.FixedSizeList?)
      modifies Repr
      ensures Column() == if x then Builders.AppendEmpties(old(Column()), n) else Builders.AppendNulls(old(Column()), n)
      decreases t, 0, 1
    {
      hide Ok, KidColumns, TypeOk, Builders.EmptyKids;
      Shape();
      KidColumnsAt();
      valid := valid + Builders.Rep(n, x);
      if t.Struct? {
        EmptyEach(0, n);
      } else {
        KidOk(0);
        kids[0].AppendEmpties(n * t.size);
        KidColumnsAt();
      }
    }

    method AppendEmpties(n: nat)
      requires Ok() && TypeOk(t)
      modifies Repr
      ensures Column() == Builders.AppendEmpties(old(Column()), n)
      decreases t, 1
    {
      Shape();
      match t
      case Union(_, _, _) => EmptyUnion(n);
      case Struct(_) => BlankNested(n, true);
      case FixedSizeList(_, _) => BlankNested(n, true);
      case _ => BlankLeaf(n, true);
    }

    method EmptyUnion(n: nat)
      requires Ok() && TypeOk(t) && t.Union?
      modifies Repr
      ensures Column() == Builders.AppendEmpties(old(Column()), n)
      decreases t, 0, 1
    {
      hide Ok, KidColumns, TypeOk, Builders.EmptyKids;
      Shape();
      KidColumnsAt();
      ghost var was := KidColumns();
      ids := ids + Builders.Rep(n, t.codes[0]);
      if t.dense {
        places := places + Builders.Rep(n, kids[0].Length());
        KidOk(0);
        kids[0].AppendEmpties(1);
        KidColumnsAre(was[0 := Whole(kids[0].Column())]);
      } else {
        EmptyEach(0, n);
      }
    }

    method EmptyEach(from: nat, n: nat)
      requires Ok() && TypeOk(t) && from <= |kids|
      modifies KidRepr()
      ensures KidColumns() == EmptyTail(old(KidColumns()), from, n)
      decreases t, 0, 0
    {
      hide Ok, TypeOk, Column, KidColumns, EmptyTail, Builders.AppendEmpties;
      Shape();
      ghost var was := KidColumns();
      ghost var goal := EmptyTail(was, from, n);
      KidColumnsAt();
      EmptyTailAt(was, from, n);
      for i := from to |kids|
        invariant forall k | 0 <= k < i :: Whole(kids[k].Column()) == goal[k]
        invariant forall k | i <= k < |kids| :: kids[k].Column() == old(kids[k].Column())
      {
        KidOk(i);
        kids[i].AppendEmpties(n);
      }
      KidColumnsAre(goal);
    }

    method AppendNulls(n: nat)
      requires Ok() && TypeOk(t)
      modifies Repr
      ensures Column() == Builders.AppendNulls(old(Column()), n)
      decreases t, 1
    {
      Shape();
      match t
      case Union(_, _, _) => NullUnion(n);
      case Struct(_) => BlankNested(n, false);
      case FixedSizeList(_, _) => BlankNested(n, false);
      case _ => BlankLeaf(n, false);
    }

    /** The column, one layer deep. */
    lemma {:induction false} Parts()
      requires Ok()
      ensures t.Struct? ==> Column() == StructBuf(valid, KidColumns())
      ensures t.List? ==> |kids| == 1 && Column() == ListBuf(valid, starts, Whole(kids[0].Column()))
      ensures t.FixedSizeList? ==> |kids| == 1 && Column() == FslBuf(valid, t.size, Whole(kids[0].Column()))
      ensures t.Map? ==>
                |kids| == 2 && Column() == MapBuf(valid, starts, Whole(kids[0].Column()), Whole(kids[1].Column()))
      ensures t.Union? ==> Column() == UnionBuf(t.dense, t.codes, ids, places, KidColumns())
    {
    }

    method NullUnion(n: nat)
      requires Ok() && TypeOk(t) && t.Union?
      modifies Repr
      ensures Column() == Builders.AppendNulls(old(Column()), n)
      decreases t, 0, 1
    {
      hide Ok, TypeOk, KidColumns, EmptyTail, Column, Builders.EmptyKids, Builders.AppendNulls;
      Shape();
      KidColumnsAt();
      KidOk(0);
      Parts();
      ghost var was := KidColumns();
      NulledUnion(t.dense, t.codes, ids, places, was, n);
      ids := ids + Builders.Rep(n, t.codes[0]);
      if t.dense { places := places + Builders.Rep(n, kids[0].Length()); }
      kids[0].AppendNulls(if t.dense then 1 else n);
      KidColumnsAre(was[0 := Whole(kids[0].Column())]);
      if !t.dense { EmptyEach(1, n); }
      Parts();
    }

    /** A sparse union gives each inactive child a null. */
    method NullOthers(arm: nat)
      requires Ok() && TypeOk(t) && arm < |kids|
      modifies KidRepr() - kids[arm].Repr
      ensures kids[arm].Ok() && kids[arm].Column() == old(kids[arm].Column())
      ensures KidColumns() == Builders.NullKids(old(KidColumns()))[arm := old(KidColumns())[arm]]
    {
      hide Ok, TypeOk, Column, KidColumns, Builders.AppendNulls;
      Shape();
      KidOk(arm);
      KidColumnsAt();
      ghost var goal := Builders.NullKids(KidColumns())[arm := KidColumns()[arm]];
      for i := 0 to |kids|
        invariant kids[arm].Column() == old(kids[arm].Column())
        invariant forall k | 0 <= k < i :: Whole(kids[k].Column()) == goal[k]
        invariant forall k | i <= k < |kids| :: kids[k].Column() == old(kids[k].Column())
      {
        KidOk(i);
        if i != arm { kids[i].AppendNulls(1); }
      }
      KidColumnsAre(goal);
    }

    /** One more non-null slot, whose children are still to be appended. */
    method Begin()
      requires Ok() && TypeOk(t) && (t.List? || t.FixedSizeList? || t.Map?)
      modifies this
      ensures valid == old(valid) + [true]
      ensures starts == if t.FixedSizeList? then old(starts) else old(starts) + [kids[|kids| - 1].Length()]
      ensures forall k | 0 <= k < |kids| :: kids[k].Ok() && kids[k].Column() == old(kids[k].Column())
    {
      hide Ok, TypeOk, Column;
      Shape();
      valid := valid + [true];
      if !t.FixedSizeList? { starts := starts + [kids[|kids| - 1].Length()]; }
    }

    // ----- runs -----

    lemma {:induction false} LeafShape()
      requires Ok()
      ensures t.Bool? ==> Column() == BoolBuf(valid, bits)
      ensures t.Fixed? ==> Column() == FixedBuf(valid, t.width, raw)
      ensures t.VarLen? ==> Column() == VarBuf(valid, starts, data)
    {
    }

    /** One bulk copy of `n` fixed-width values. */
    method AppendRun(bytes: bytes, n: nat)
      requires Ok() && (t.Bool? || t.Fixed?)
      modifies this
      ensures Column() == Builders.AppendRun(old(Column()), bytes, n)
    {
      valid := valid + Builders.Rep(n, true);
      if t.Bool? {
        bits := bits + Builders.Truths(bytes);
      } else {
        raw := raw + bytes;
      }
    }

    // ----- finishing -----

    /** `ArrayBuilder::Finish`: hands the column over and starts an empty one. */
    method Finish() returns (a: Arr)
      requires Ok()
      modifies Repr
      ensures a == Whole(old(Column())) && Column() == EmptyColumn(t)
    {
      a := Whole(Column());
      Reset();
    }

    method Reset()
      requires Ok()
      modifies Repr
      ensures Column() == EmptyColumn(t)
      decreases t
    {
      hide Column, KidColumns, EmptyColumn;
      Tree();
      valid, bits, raw, starts, data, ids, places := [], [], [], [], [], [], [];
      for i := 0 to |kids|
        invariant valid == bits == [] && raw == data == [] && starts == ids == places == []
        invariant forall k | 0 <= k < i :: kids[k].Column() == EmptyColumn(Kids(t)[k])
      {
        kids[i].Reset();
      }
      EmptyNow();
    }

    lemma {:induction false} Tree()
      requires Ok()
      ensures this in Repr && |kids| == |Kids(t)|
      ensures forall k | 0 <= k < |kids| ::
                kids[k].t == Kids(t)[k] && kids[k].t < t && kids[k].Ok() && kids[k].Repr <= Repr && this !in kids[k].Repr
      ensures forall i, j | 0 <= i < |kids| && 0 <= j < |kids| && i != j :: kids[i].Repr !! kids[j].Repr
    {
    }

    lemma {:induction false} EmptyNow()
      requires Ok() && |kids| == |Kids(t)|
      requires valid == bits == [] && raw == data == [] && starts == ids == places == []
      requires forall k | 0 <= k < |kids| :: kids[k].Ok() && kids[k].Column() == EmptyColumn(Kids(t)[k])
      ensures Column() == EmptyColumn(t)
    {
      hide Ok;
      var ts := Kids(t);
      KidColumnsAre(seq(|ts|, k requires 0 <= k < |ts| => Whole(EmptyColumn(ts[k]))));
    }
  }

  /** The column of a builder that nothing has been appended to. */
  function EmptyColumn(t: Type): Buf
  {
    match t
    case Bool => BoolBuf([], [])
    case Fixed(w) => FixedBuf([], w, [])
    case VarLen(_) => VarBuf([], [], [])
    case Struct(ts) => StructBuf([], seq(|ts|, k requires 0 <= k < |ts| => Whole(EmptyColumn(ts[k]))))
    case List(_, e) => ListBuf([], [], Whole(EmptyColumn(e)))
    case FixedSizeList(n, e) => FslBuf([], n, Whole(EmptyColumn(e)))
    case Map(k, i) => MapBuf([], [], Whole(EmptyColumn(k)), Whole(EmptyColumn(i)))
    case Union(dense, codes, arms) =>
      UnionBuf(dense, codes, [], [], seq(|arms|, k requires 0 <= k < |arms| => Whole(EmptyColumn(arms[k]))))
  }

  lemma {:induction false} EmptyIsBuilt(t: Type)
    ensures Built(t, EmptyColumn(t)) && Slots(EmptyColumn(t)) == 0
    decreases t
  {
    match t
    case Struct(ts) => EmptyKidsAreBuilt(ts);
    case List(_, e) => EmptyIsBuilt(e);
    case FixedSizeList(_, e) => EmptyIsBuilt(e);
    case Map(k, i) =>
      EmptyIsBuilt(k);
      EmptyIsBuilt(i);
    case Union(_, _, arms) => EmptyKidsAreBuilt(arms);
    case _ =>
  }

  lemma {:induction false} EmptyKidsAreBuilt(ts: seq<Type>)
    ensures forall k | 0 <= k < |ts| ::
              KidBuilt(ts[k], Whole(EmptyColumn(ts[k]))) && Slots(EmptyColumn(ts[k])) == 0
    decreases ts
  {
    forall k | 0 <= k < |ts|
      ensures KidBuilt(ts[k], Whole(EmptyColumn(ts[k]))) && Slots(EmptyColumn(ts[k])) == 0
    {
      EmptyIsBuilt(ts[k]);
    }
  }

  /** An empty builder for a type, with an empty builder for each child type. */
  method MakeBuilder(t: Type) returns (b: Builder)
    ensures b.Ok() && b.t == t && fresh(b.Repr) && b.Column() == EmptyColumn(t)
    decreases t
  {
    hide Builder.Column, Builder.KidColumns, EmptyColumn;
    var ts := Kids(t);
    var kids: seq<Builder> := [];
    for i := 0 to |ts|
      invariant |kids| == i
      invariant forall k | 0 <= k < i ::
                  kids[k].t == ts[k] && kids[k].Ok() && fresh(kids[k].Repr) && kids[k].Column() == EmptyColumn(ts[k])
      invariant forall j, k | 0 <= j < k < i :: kids[j].Repr !! kids[k].Repr
    {
      var kid := MakeBuilder(ts[i]);
      kids := kids + [kid];
    }
    b := new Builder(t, kids);
    b.EmptyNow();
  }
}
