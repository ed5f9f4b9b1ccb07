/** `Node`, and the validation walk over it: it reads a row, checks the 32-bit budgets as it goes and
    touches nothing but its reader and the `pending` counters of the budgeted nodes. */
module BatchSkip {
  import opened Wire
  import opened RowTypes
  import opened CodecSpec
  import opened RowReader
  import opened RowDecoder
  import CodecRows
  import opened Budget
  import opened Capacity
  import opened SkipSpec
  import opened BatchTree
  import Builders

  lemma {:induction false} LoadOwn(t: Type, b: Builder)
    requires b.Ok() && b.t == t
    ensures Load(true, t, b.Column()).own == OwnLoad(true, t, b.Column())
    ensures Load(true, t, b.Column()).arms == ArmLoad(true, t, b.Column())
    ensures BufKids(b.Column()) == b.KidColumns()
    ensures t.List? ==> b.Column().ListBuf? && b.Column().kid == b.KidColumns()[0]
    ensures t.Map? ==> b.Column().MapBuf? && b.Column().items == b.KidColumns()[1]
    ensures t.VarLen? ==> b.Column().VarBuf? && b.Column().data == b.data
  {
  }

  /** One node per schema position, each with the builder it fills. */
  class Node {
    const t: Type
    const width: nat
    const codeToChild: seq<int>
    const builder: Builder
    const children: seq<Node>
    var pending: nat
    ghost var arms: seq<nat>
    ghost const Repr: set<Node>

    ghost predicate Ok()
      decreases t
    {
      && this in Repr && builder.Ok() && builder.t == t && TypeOk(t)
      && width == FixedWidth(t)
      && (t.Union? ==> |codeToChild| == 128 && forall c | 0 <= c < 128 :: codeToChild[c] == ChildId(t.codes, c))
      && |children| == |Kids(t)| == |builder.kids|
      && (forall k | 0 <= k < |children| ::
            && children[k].t == Kids(t)[k] && children[k].t < t && children[k].builder == builder.kids[k]
            && children[k].Ok() && children[k].Repr <= Repr && this !in children[k].Repr)
      && (forall i, j | 0 <= i < j < |children| :: children[i].Repr !! children[j].Repr)
    }

    constructor (builder: Builder, children: seq<Node>)
      requires builder.Ok() && TypeOk(builder.t) && |children| == |builder.kids|
      requires forall k | 0 <= k < |children| :: children[k].builder == builder.kids[k] && children[k].Ok()
      requires forall i, j | 0 <= i < j < |children| :: children[i].Repr !! children[j].Repr
      ensures Ok() && this.builder == builder && this.children == children
      ensures Repr == {this} + set k, x | 0 <= k < |children| && x in children[k].Repr :: x
      ensures pending == 0 && arms == Builders.Rep(ArmCount(t), 0)
    {
      t, width := builder.t, FixedWidth(builder.t);
      codeToChild := if builder.t.Union? then seq(128, c requires 0 <= c < 128 => ChildId(builder.t.codes, c)) else [];
      this.builder, this.children := builder, children;
      pending, arms := 0, Builders.Rep(ArmCount(builder.t), 0);
      Repr := {this} + set k, x | 0 <= k < |children| && x in children[k].Repr :: x;
      new;
      builder.Tree();
    }

    /** The pending counters of the tree; `arms` records which child each dense-union charge was for. */
    ghost function Pending(): Tally
      requires Ok()
      reads Repr
      decreases t, 1
    {
      Tally(pending, arms, KidsPending())
    }

    ghost function KidsPending(): (r: seq<Tally>)
      requires Ok()
      reads Repr - {this}
      ensures |r| == |children|
      decreases t, 0
    {
      seq(|children|, k requires 0 <= k < |children| reads Repr - {this} => children[k].Pending())
    }

    /** What the columns hold. */
    ghost function Held(): Tally
      requires Ok()
      reads builder.Repr
    {
      Load(true, t, builder.Column())
    }

    /** The nodes whose counters can move. */
    ghost function Budgets(): set<Node> { set n | n in Repr && Budgeted(n.t) }

    lemma {:induction false} Shape()
      requires Ok()
      ensures this in Repr && builder.Ok() && builder.t == t && TypeOk(t) && width == FixedWidth(t)
      ensures |children| == |Kids(t)| && |KidsPending()| == |Held().kids| == |Kids(t)|
      ensures Budgeted(t) ==> this in Budgets()
      ensures forall k | 0 <= k < |children| ::
                && children[k].Ok() && children[k].t == Kids(t)[k] && children[k].t < t
                && children[k].builder == builder.kids[k]
                && children[k].Budgets() <= Budgets() - {this} && children[k].Budgets() <= children[k].Repr
                && this !in children[k].Repr
                && KidsPending()[k] == children[k].Pending() && Held().kids[k] == children[k].Held()
      ensures forall i, j | 0 <= i < |children| && 0 <= j < |children| && i != j :: children[i].Repr !! children[j].Repr
    {
      hide Load, TypeOk;
      builder.Tree();
      HeldKids();
    }

    /** The links between a node, its builder and its children. */
    lemma {:induction false} Links()
      requires Ok()
      ensures builder.Ok() && builder.t == t && TypeOk(t) && width == FixedWidth(t)
      ensures |children| == |Kids(t)| == |builder.kids|
      ensures forall k | 0 <= k < |children| ::
                && children[k].Ok() && children[k].t == Kids(t)[k] && children[k].t < t
                && children[k].builder == builder.kids[k]
    {
    }

    /** What each running check compares with. */
    lemma {:induction false} HeldOwn()
      requires Ok()
      ensures |children| == |Kids(t)| && builder.Ok()
      ensures t.VarLen? && t.budgeted ==> Held().own == |builder.data|
      ensures t.List? && !t.large ==> Held().own == children[0].builder.Length()
      ensures t.Map? ==> Held().own == children[1].builder.Length()
      ensures t.Union? && t.dense ==>
                |Held().arms| == |children| && forall k | 0 <= k < |children| :: Held().arms[k] == children[k].builder.Length()
    {
      hide Load, TypeOk, Builder.Column;
      builder.KidColumnsAt();
      LoadOwn(t, builder);
    }

    lemma {:induction false} PendingParts()
      requires Ok()
      ensures Pending() == Tally(pending, arms, KidsPending()) && |KidsPending()| == |children|
      ensures forall k | 0 <= k < |children| :: children[k].Ok() && KidsPending()[k] == children[k].Pending()
    {
    }

    lemma {:induction false} PendingIs(ks: seq<Tally>)
      requires Ok() && |ks| == |children|
      requires forall k | 0 <= k < |ks| :: children[k].Ok() && ks[k] == children[k].Pending()
      ensures Pending() == Tally(pending, arms, ks)
    {
      assert KidsPending() == ks;
    }

    /** A counter past the limit shows wherever it is in the tree. */
    lemma {:induction false} KidExceeds(k: nat)
      requires Ok() && k < |children| && children[k].Ok() && Exceeded(children[k].t, children[k].Held(), children[k].Pending())
      ensures Exceeded(t, Held(), Pending())
    {
      PendingParts();
      HeldKids();
      hide Held, Pending, KidsPending;
    }

    lemma {:induction false} OwnExceeds()
      requires Ok() && Budgeted(t) && OwnExceeded(t, Held(), Pending())
      ensures Exceeded(t, Held(), Pending())
    {
      hide Held, Pending;
    }

    lemma {:induction false} CodeTable()
      requires Ok() && t.Union?
      ensures |codeToChild| == 128 && UnionOk(t.codes, t.arms)
      ensures forall c | 0 <= c < 128 :: codeToChild[c] == ChildId(t.codes, c)
    {
    }

    lemma {:induction false} HeldKids()
      requires Ok()
      ensures |Held().kids| == |children|
      ensures forall k | 0 <= k < |children| :: children[k].Ok() && Held().kids[k] == children[k].Held()
    {
      builder.KidColumnsAt();
      assert BufKids(builder.Column()) == builder.KidColumns();
    }
  }

  method SkipScalar(node: Node, r: Reader) returns (o: Outcome)
    requires node.Ok() && r.Valid() && TallyOf(node.t, node.Pending())
    requires node.t.Bool? || node.t.Fixed? || node.t.VarLen?
    modifies node.Budgets(), r
    ensures r.Valid()
    ensures Verdict(node.t, old(node.Held()), old(node.Pending()), Decode(node.t, old(r.Rest())), o, node.Pending(), r.Rest())
    ensures o.OverCapacity? ==> Exceeded(node.t, old(node.Held()), node.Pending())
  {
    hide Exceeded, Node.Ok, Node.Held, Node.Pending, Node.Budgets, Passes, Charge, Add, TallyOf, DecodeFields, DecodeElems, DecodeList, Flags,
      LIMIT, OwnExceeded;
    node.Links();
    if node.width > 0 {
      var b := r.ReadBytes(node.width);
      if b.None? { return Malformed; }
      LeafCharge(node.t, node.Held(), node.Pending(), RunValue(node.t, b.value));
      return Fine;
    }
    o := SkipVar(node, r);
  }

  method SkipVar(node: Node, r: Reader) returns (o: Outcome)
    requires node.Ok() && r.Valid() && TallyOf(node.t, node.Pending()) && node.t.VarLen?
    modifies node.Budgets(), r
    ensures r.Valid()
    ensures Verdict(node.t, old(node.Held()), old(node.Pending()), Decode(node.t, old(r.Rest())), o, node.Pending(), r.Rest())
    ensures o.OverCapacity? ==> Exceeded(node.t, old(node.Held()), node.Pending())
  {
    hide Exceeded, Node.Ok, Node.Held, Node.Pending, Node.Budgets, Passes, Charge, Add, TallyOf, LIMIT, OwnExceeded;
    var n := r.ReadU32();
    if n.None? { return Malformed; }
    var b := r.ReadBytes(n.value);
    if b.None? { return Malformed; }
    VarCharge(node.t, node.Held(), node.Pending(), b.value);
    var over := ChargeVar(node, n.value);
    return if over then OverCapacity else Fine;
  }

  method ChargeVar(node: Node, len: nat) returns (over: bool)
    requires node.Ok() && node.t.VarLen?
    modifies node.Budgets()
    ensures over <==> node.t.budgeted && old(node.Held()).own + old(node.Pending()).own + len > LIMIT
    ensures over ==> Exceeded(node.t, old(node.Held()), node.Pending())
    ensures node.Pending() == old(node.Pending()).(own := old(node.Pending()).own + if node.t.budgeted then len else 0)
  {
    hide Node.Held, LIMIT, Exceeded;
    node.HeldOwn();
    if !node.t.budgeted { return false; }
    node.pending := node.pending + len;
    node.PendingIs([]);
    over := |node.builder.data| + node.pending > LIMIT;
    if over { node.OwnExceeds(); }
  }

  lemma {:induction false} LeafCharge(t: Type, held: Tally, p: Tally, v: Value)
    requires FixedWidth(t) > 0 && TallyOf(t, p) && v != Null
    ensures Passes(t, held, p, v) && Add(p, Charge(true, t, v)) == p
  {
    FreeSlot(t, held, p, v);
    AddZero(t, p);
  }

  lemma {:induction false} VarCharge(t: Type, held: Tally, p: Tally, data: bytes)
    requires t.VarLen? && TallyOf(t, p)
    ensures Passes(t, held, p, VarV(data)) <==> (t.budgeted ==> held.own + p.own + |data| <= LIMIT)
    ensures Add(p, Charge(true, t, VarV(data))) == Tally(p.own + if t.budgeted then |data| else 0, p.arms, p.kids)
  {
    NoArms(t, p, VarV(data));
    Assembled(t, p, VarV(data), p.own + if t.budgeted then |data| else 0, p.arms, p.kids);
  }

  /** Values of one child, one by one. */
  method SkipSlots(node: Node, nulls: seq<bool>, r: Reader) returns (o: Outcome)
    requires node.Ok() && r.Valid() && TallyOf(node.t, node.Pending())
    modifies node.Budgets(), r
    ensures r.Valid()
    ensures SlotsVerdict(node.t, old(node.Held()), old(node.Pending()), DecodeElems(node.t, nulls, old(r.Rest())), o,
                         node.Pending(), r.Rest())
    ensures o.OverCapacity? ==> Exceeded(node.t, old(node.Held()), node.Pending())
    decreases node.t, 5
  {
    hide Exceeded, Node.Ok, Node.Held, Node.Pending, SlotPasses, ChargeSlot, Add, DecodeSlot, DecodeElems, TallyOf, ElemsPass, ChargeElems;
    ghost var held, p, d := node.Held(), node.Pending(), DecodeElems(node.t, nulls, r.Rest());
    assert nulls[0..] == nulls;
    for i := 0 to |nulls|
      invariant r.Valid() && node.Held() == held && TallyOf(node.t, node.Pending())
      invariant SameTask(node.t, held, p, d, node.Pending(), DecodeElems(node.t, nulls[i..], r.Rest()))
    {
      TaskStep(node.t, held, p, d, node.Pending(), nulls, i, r.Rest());
      o := SkipSlot(node, nulls[i], r);
      if !o.Fine? { return; }
    }
    TaskEnd(node.t, held, p, d, node.Pending(), nulls, r.Rest());
    return Fine;
  }

  /** A list body: the bitfield, then what it describes. */
  method SkipElements(node: Node, r: Reader, count: nat) returns (o: Outcome)
    requires node.Ok() && r.Valid() && TallyOf(node.t, node.Pending()) && (node.t.List? || node.t.FixedSizeList?)
    modifies node.Budgets(), r
    ensures r.Valid()
    ensures Verdict(node.t, old(node.Held()), old(node.Pending()), AsList(DecodeList(Kids(node.t)[0], count, old(r.Rest()))), o,
                    node.Pending(), r.Rest())
    ensures o.OverCapacity? ==> Exceeded(node.t, old(node.Held()), node.Pending())
    decreases node.t, 2
  {
    hide Exceeded, Node.Ok, Node.Held, Node.Pending, Node.Budgets, Passes, Charge, Add, DecodeElems, TallyOf, Flags;
    var bf := r.ReadBytes(BitfieldBytes(count));
    if bf.None? { return Malformed; }
    o := SkipBody(node, bf.value, count, r);
  }

  /** The list's own check, then one run or one slot at a time. */
  method SkipBody(node: Node, bf: bytes, count: nat, r: Reader) returns (o: Outcome)
    requires node.Ok() && r.Valid() && TallyOf(node.t, node.Pending()) && (node.t.List? || node.t.FixedSizeList?)
    requires |bf| == BitfieldBytes(count)
    modifies node.Budgets(), r
    ensures r.Valid()
    ensures Verdict(node.t, old(node.Held()), old(node.Pending()),
                    AsList(DecodeElems(Kids(node.t)[0], Flags(bf, count), old(r.Rest()))), o, node.Pending(), r.Rest())
    ensures o.OverCapacity? ==> Exceeded(node.t, old(node.Held()), node.Pending())
    decreases node.t, 1
  {
    hide Exceeded, Node.Ok, Node.Held, Node.Pending, Node.KidsPending, Node.Budgets, Verdict, SlotsVerdict, AsList, DecodeElems,
      TallyOf, Flags, LIMIT, TypeOk;
    node.PendingParts();
    node.Shape();
    TallyShape(node.t, node.Pending());
    var elem := node.children[0];
    ghost var held, p, d := node.Held(), node.Pending(), DecodeElems(elem.t, Flags(bf, count), r.Rest());
    if d.Ok? { CodecRows.ElemsHaveType(elem.t, Flags(bf, count), r.Rest()); }
    var over := ListBegin(node, count);
    if over {
      ListRefused(node.t, held, p, d, count, node.Pending(), r.Rest());
      return OverCapacity;
    }
    o := SkipRun(elem, bf, count, r);
    if o.OverCapacity? { node.KidExceeds(0); }
    node.PendingIs([elem.Pending()]);
    ListVerdict(node.t, held, p, d, count, o, elem.Pending(), r.Rest());
  }

  /** A list with 32-bit offsets counts its elements; no other list has a budget. */
  method ListBegin(node: Node, count: nat) returns (over: bool)
    requires node.Ok() && (node.t.List? || node.t.FixedSizeList?)
    modifies if Budgeted(node.t) then {node} else {}
    ensures node.pending == old(node.pending) + ListCharge(node.t, count) && node.arms == old(node.arms)
    ensures over <==> Budgeted(node.t) && old(node.Held()).own + old(node.pending) + count > LIMIT
    ensures over ==> Exceeded(node.t, old(node.Held()), node.Pending())
  {
    hide Exceeded, Node.Ok, Node.Held, TypeOk;
    if !Budgeted(node.t) { return false; }
    node.HeldOwn();
    node.pending := node.pending + count;
    over := node.children[0].builder.Length() + node.pending > LIMIT;
    if over {
      node.PendingParts();
      node.OwnExceeds();
    }
  }

  /** A map counts its entries. */
  method MapBegin(node: Node, count: nat) returns (over: bool)
    requires node.Ok() && node.t.Map?
    modifies node
    ensures node.pending == old(node.pending) + count && node.arms == old(node.arms)
    ensures over <==> old(node.Held()).own + old(node.pending) + count > LIMIT
    ensures over ==> Exceeded(node.t, old(node.Held()), node.Pending())
  {
    hide Exceeded, Node.Ok, Node.Held, TypeOk;
    node.HeldOwn();
    node.pending := node.pending + count;
    over := node.children[1].builder.Length() + node.pending > LIMIT;
    if over {
      node.PendingParts();
      node.OwnExceeds();
    }
  }

  method SkipRun(elem: Node, bf: bytes, count: nat, r: Reader) returns (o: Outcome)
    requires elem.Ok() && r.Valid() && TallyOf(elem.t, elem.Pending()) && |bf| == BitfieldBytes(count)
    modifies elem.Budgets(), r
    ensures r.Valid()
    ensures SlotsVerdict(elem.t, old(elem.Held()), old(elem.Pending()), DecodeElems(elem.t, Flags(bf, count), old(r.Rest())), o,
                         elem.Pending(), r.Rest())
    ensures o.OverCapacity? ==> Exceeded(elem.t, old(elem.Held()), elem.Pending())
    decreases elem.t, 6
  {
    hide Exceeded, Node.Ok, Passes, Charge, Add, Decode, DecodeElems, TallyOf, ElemsPass, ChargeElems, Flags, RunValues;
    elem.Shape();
    ghost var held, p, s := elem.Held(), elem.Pending(), r.Rest();
    ghost var nulls := Flags(bf, count);
    if count == 0 {
      AllNullElems(elem.t, nulls, s);
      FreeSlots(elem.t, held, p, []);
      assert seq(0, _ => Null) == [];
      return Fine;
    }
    var allValid := AllValid(bf, count);
    if elem.width > 0 && allValid {
      AllValidMeansNoNulls(bf, count);
      RunIsElements(elem.t, count, s);
      DivideNeverMultiply(count, elem.width, |s|);
      if count > r.Remaining() / elem.width { return Malformed; }
      var run := r.ReadBytes(count * elem.width);
      FreeSlots(elem.t, held, p, RunValues(elem.t, count, run.value));
      return Fine;
    }
    var allNull := AllNull(bf, count);
    if allNull {
      AllNullElems(elem.t, nulls, s);
      FreeSlots(elem.t, held, p, seq(count, _ => Null));
      return Fine;
    }
    o := SkipSlots(elem, Flags(bf, count), r);
  }

  method SkipMap(node: Node, r: Reader) returns (o: Outcome)
    requires node.Ok() && r.Valid() && TallyOf(node.t, node.Pending()) && node.t.Map?
    modifies node.Budgets(), r
    ensures r.Valid()
    ensures Verdict(node.t, old(node.Held()), old(node.Pending()), Decode(node.t, old(r.Rest())), o, node.Pending(), r.Rest())
    ensures o.OverCapacity? ==> Exceeded(node.t, old(node.Held()), node.Pending())
    decreases node.t, 2
  {
    hide Exceeded, Node.Ok, Node.Held, Node.Pending, Passes, Charge, Add, Decode, DecodeElems, DecodeList, TallyOf, AsMap;
    MapUnfold(node.t, r.Rest());
    var n := r.ReadU32();
    if n.None? { return Malformed; }
    if n.value > r.Remaining() { return Malformed; }
    o := SkipEntries(node, n.value, r);
  }

  method SkipEntries(node: Node, count: nat, r: Reader) returns (o: Outcome)
    requires node.Ok() && r.Valid() && TallyOf(node.t, node.Pending()) && node.t.Map?
    modifies node.Budgets(), r
    ensures r.Valid()
    ensures Verdict(node.t, old(node.Held()), old(node.Pending()), DecodeEntries(node.t, count, old(r.Rest())), o,
                    node.Pending(), r.Rest())
    ensures o.OverCapacity? ==> Exceeded(node.t, old(node.Held()), node.Pending())
    decreases node.t, 1
  {
    hide Exceeded, Node.Ok, Node.Held, Node.Pending, Node.KidsPending, Node.Budgets, TypeOk, Verdict, SlotsVerdict, DecodeElems,
      DecodeList, TallyOf, AsMap, LIMIT;
    node.PendingParts();
    node.Shape();
    TallyShape(node.t, node.Pending());
    var keys, items := node.children[0], node.children[1];
    ghost var held, p := node.Held(), node.Pending();
    ghost var dk := DecodeElems(keys.t, seq(count, _ => false), r.Rest());
    ghost var di := if dk.Ok? then DecodeList(items.t, count, dk.rest) else Err;
    if dk.Ok? { CodecRows.ElemsHaveType(keys.t, seq(count, _ => false), r.Rest()); }
    var over := MapBegin(node, count);
    if over {
      MapRefused(node.t, held, p, dk, di, count, OverCapacity, p, node.Pending(), r.Rest());
      return OverCapacity;
    }
    o := SkipSlots(keys, seq(count, _ => false), r);
    if !o.Fine? {
      MapRefused(node.t, held, p, dk, di, count, o, keys.Pending(), node.Pending(), r.Rest());
      if o.OverCapacity? { node.KidExceeds(0); }
      return;
    }
    FineMeansRead(keys.t, held.kids[0], p.kids[0], dk, keys.Pending(), r.Rest());
    o := SkipMapItems(items, count, r);
    if o.OverCapacity? { node.KidExceeds(1); }
    node.PendingIs([keys.Pending(), items.Pending()]);
    MapVerdict(node.t, held, p, dk, di, count, o, keys.Pending(), items.Pending(), r.Rest());
  }

  /** The entries of a map, once their count is known to be plausible. */
  ghost function DecodeEntries(t: Type, count: nat, s: bytes): Decoded<Value>
    requires t.Map?
  {
    var dk := DecodeElems(t.key, seq(count, _ => false), s);
    AsMap(dk, if dk.Ok? then DecodeList(t.item, count, dk.rest) else Err)
  }

  method SkipMapItems(items: Node, count: nat, r: Reader) returns (o: Outcome)
    requires items.Ok() && r.Valid() && TallyOf(items.t, items.Pending())
    modifies items.Budgets(), r
    ensures r.Valid()
    ensures SlotsVerdict(items.t, old(items.Held()), old(items.Pending()), DecodeList(items.t, count, old(r.Rest())), o,
                         items.Pending(), r.Rest())
    ensures o.OverCapacity? ==> Exceeded(items.t, old(items.Held()), items.Pending())
    decreases items.t, 6
  {
    hide Exceeded, Node.Ok, Node.Held, Decode, DecodeElems, TallyOf, ElemsPass, ChargeElems, Flags;
    var bf := r.ReadBytes(BitfieldBytes(count));
    if bf.None? { return Malformed; }
    o := SkipSlots(items, Flags(bf.value, count), r);
  }

  lemma {:induction false} MapUnfold(t: Type, s: bytes)
    requires t.Map?
    ensures Decode(t, s)
         == match TakeU32(s)
            case Err => Err
            case Ok(n, r) => if n > |r| then Err else DecodeEntries(t, n, r)
  {
    hide DecodeElems, DecodeList;
  }

  method SkipUnion(node: Node, r: Reader) returns (o: Outcome)
    requires node.Ok() && r.Valid() && TallyOf(node.t, node.Pending()) && node.t.Union?
    modifies node.Budgets(), r
    ensures r.Valid()
    ensures Verdict(node.t, old(node.Held()), old(node.Pending()), Decode(node.t, old(r.Rest())), o, node.Pending(), r.Rest())
    ensures o.OverCapacity? ==> Exceeded(node.t, old(node.Held()), node.Pending())
    decreases node.t, 2
  {
    hide Exceeded, Node.Ok, Node.Held, Node.Pending, Passes, Charge, Add, Decode, TallyOf;
    node.CodeTable();
    UnionUnfold(node.t, r.Rest());
    var b := r.ReadBytes(1);
    if b.None? { return Malformed; }
    var code := b.value[0];
    var arm := if code >= 128 then -1 else node.codeToChild[code];
    if arm < 0 { return Malformed; }
    o := SkipArm(node, code, arm, r);
  }

  /** The union's own check: one more slot for the chosen child. */
  method UnionBegin(node: Node, code: nat, arm: nat) returns (over: bool)
    requires node.Ok() && node.t.Union? && ChildId(node.t.codes, code) == arm < |node.t.arms|
    requires |node.arms| == ArmCount(node.t)
    modifies if node.t.dense then {node} else {}
    ensures node.pending == old(node.pending) + UnionCharge(node.t, code)
    ensures node.arms == AddNats(old(node.arms), UnionArms(node.t, code))
    ensures over <==> !OwnPasses(node.t, old(node.Held()), old(node.pending), UnionV(code, Null))
    ensures over ==> Exceeded(node.t, old(node.Held()), node.Pending())
  {
    hide Node.Ok, Node.Held, TypeOk;
    node.HeldOwn();
    if node.t.dense {
      node.pending := node.pending + 1;
      node.arms := AddNats(node.arms, UnionArms(node.t, code));
      over := node.children[arm].builder.Length() + node.pending > LIMIT;
      if over {
        node.PendingParts();
        assert node.Held().arms[arm] + node.Pending().own > LIMIT;
        node.OwnExceeds();
      }
    } else {
      assert AddNats(node.arms, UnionArms(node.t, code)) == node.arms;
      over := false;
    }
  }

  method SkipArm(node: Node, code: nat, arm: nat, r: Reader) returns (o: Outcome)
    requires node.Ok() && r.Valid() && TallyOf(node.t, node.Pending()) && node.t.Union?
    requires ChildId(node.t.codes, code) == arm < |node.t.arms|
    modifies node.Budgets(), r
    ensures r.Valid()
    ensures Verdict(node.t, old(node.Held()), old(node.Pending()), AsUnion(code, Decode(node.t.arms[arm], old(r.Rest()))), o,
                    node.Pending(), r.Rest())
    ensures o.OverCapacity? ==> Exceeded(node.t, old(node.Held()), node.Pending())
    decreases node.t, 1
  {
    hide Exceeded, Node.Ok, Node.Held, Node.Pending, Node.KidsPending, Node.Budgets, TypeOk, Verdict, Decode, TallyOf, OwnPasses,
      UnionCharge, UnionArms, AddNats, AsUnion, ChildId;
    node.PendingParts();
    node.Shape();
    TallyShape(node.t, node.Pending());
    ghost var held, p := node.Held(), node.Pending();
    var child := node.children[arm];
    ghost var d := Decode(child.t, r.Rest());
    if d.Ok? { CodecRows.DecodedHasType(child.t, r.Rest()); }
    var over := UnionBegin(node, code, arm);
    if over {
      UnionOver(node.t, held, p, code, d, node.Pending(), r.Rest());
      return OverCapacity;
    }
    o := SkipValue(child, r);
    if o.OverCapacity? { node.KidExceeds(arm); }
    node.PendingIs(p.kids[arm := child.Pending()]);
    UnionVerdict(node.t, held, p, code, arm, d, o, child.Pending(), r.Rest());
  }

  lemma {:induction false} UnionUnfold(t: Type, s: bytes)
    requires t.Union? && UnionOk(t.codes, t.arms)
    ensures Decode(t, s)
         == if |s| == 0 then Err
            else
              var arm := if s[0] >= 128 then -1 else ChildId(t.codes, s[0]);
              if arm < 0 then Err else AsUnion(s[0], Decode(t.arms[arm], s[1..]))
  {
  }

  method SkipStruct(node: Node, r: Reader) returns (o: Outcome)
    requires node.Ok() && r.Valid() && TallyOf(node.t, node.Pending()) && node.t.Struct?
    modifies node.Budgets(), r
    ensures r.Valid()
    ensures Verdict(node.t, old(node.Held()), old(node.Pending()), Decode(node.t, old(r.Rest())), o, node.Pending(), r.Rest())
    ensures o.OverCapacity? ==> Exceeded(node.t, old(node.Held()), node.Pending())
    decreases node.t, 2
  {
    hide Exceeded, Node.Ok, Node.Held, Node.Pending, Passes, Charge, Add, Decode, DecodeFields, TallyOf, Flags;
    StructUnfold(node.t.fields, r.Rest());
    var bf := r.ReadBytes(BitfieldBytes(|node.t.fields|));
    if bf.None? { return Malformed; }
    o := SkipFields(node, Flags(bf.value, |node.t.fields|), r);
  }

  lemma {:induction false} StructUnfold(ts: seq<Type>, s: bytes)
    ensures Decode(Struct(ts), s)
         == match Take(s, BitfieldBytes(|ts|))
            case Err => Err
            case Ok(bf, r) => AsStruct(DecodeFields(ts, Flags(bf, |ts|), r))
  {
    hide DecodeFields, Flags;
  }

  method SkipFields(node: Node, nulls: seq<bool>, r: Reader) returns (o: Outcome)
    requires node.Ok() && r.Valid() && TallyOf(node.t, node.Pending()) && node.t.Struct? && |nulls| == |node.t.fields|
    modifies node.Budgets(), r
    ensures r.Valid()
    ensures Verdict(node.t, old(node.Held()), old(node.Pending()), AsStruct(DecodeFields(node.t.fields, nulls, old(r.Rest()))), o,
                    node.Pending(), r.Rest())
    ensures o.OverCapacity? ==> Exceeded(node.t, old(node.Held()), node.Pending())
    decreases node.t, 1
  {
    hide Exceeded, Node.Ok, Node.Held, Node.Pending, Node.KidsPending, Node.Budgets, TypeOk, Verdict, SlotVerdict, Midway,
      DecodeFields, DecodeSlot, TallyOf, AsStruct;
    node.PendingParts();
    node.Shape();
    TallyShape(node.t, node.Pending());
    var ts := node.t.fields;
    ghost var held, p, d := node.Held(), node.Pending(), DecodeFields(ts, nulls, r.Rest());
    ghost var vs: seq<Value> := [];
    MidwayStart(node.t, held, p, nulls, r.Rest());
    for i := 0 to |ts|
      invariant r.Valid() && |vs| == i && node.pending == p.own && node.arms == p.arms
      invariant Midway(node.t, held, p, nulls, d, vs, node.KidsPending(), r.Rest())
    {
      ghost var v;
      o, v := SkipField(node, i, nulls, r, held, p, d, vs);
      if !o.Fine? { return; }
      vs := vs + [v];
    }
    node.PendingParts();
    MidwayEnd(node.t, held, p, nulls, d, vs, node.KidsPending(), r.Rest());
    return Fine;
  }

  /** One field of a struct; the ghost arguments say where the walk stands. */
  method SkipField(node: Node, i: nat, nulls: seq<bool>, r: Reader, ghost held: Tally, ghost p: Tally,
                   ghost d: Decoded<seq<Value>>, ghost vs: seq<Value>) returns (o: Outcome, ghost v: Value)
    requires node.Ok() && r.Valid() && node.t.Struct? && node.Held() == held && TallyOf(node.t, p)
    requires i == |vs| < |node.t.fields| && Midway(node.t, held, p, nulls, d, vs, node.KidsPending(), r.Rest())
    modifies node.Budgets(), r
    ensures r.Valid() && node.pending == old(node.pending) && node.arms == old(node.arms)
    ensures o.Fine? ==> Midway(node.t, held, p, nulls, d, vs + [v], node.KidsPending(), r.Rest())
    ensures !o.Fine? ==> Verdict(node.t, held, p, AsStruct(d), o, node.Pending(), r.Rest())
    ensures o.OverCapacity? ==> Exceeded(node.t, held, node.Pending())
    decreases node.t, 0
  {
    hide Exceeded, Node.Ok, Node.Held, Node.Pending, Node.KidsPending, TypeOk, Verdict, SlotVerdict, DecodeFields, DecodeSlot,
      TallyOf, AsStruct, After, Add, ChargeSlot, SlotPasses;
    node.PendingParts();
    node.Shape();
    TallyShape(node.t, p);
    ghost var kids, s := node.KidsPending(), r.Rest();
    hide Midway;
    var child := node.children[i];
    o := SkipSlot(child, nulls[i], r);
    node.PendingParts();
    v := Null;
    if o.Fine? {
      MidwayStep(node.t, held, p, nulls, d, vs, kids, s, child.Pending(), r.Rest());
      v := DecodeSlot(node.t.fields[i], nulls[i], s).val;
      assert node.KidsPending() == kids[i := child.Pending()];
    } else {
      MidwayRefused(node.t, held, p, nulls, d, vs, kids, s, o, child.Pending(), node.Pending(), r.Rest());
      if o.OverCapacity? { node.KidExceeds(i); }
    }
  }

  method SkipSlot(node: Node, isNull: bool, r: Reader) returns (o: Outcome)
    requires node.Ok() && r.Valid() && TallyOf(node.t, node.Pending())
    modifies node.Budgets(), r
    ensures r.Valid()
    ensures SlotVerdict(node.t, old(node.Held()), old(node.Pending()), DecodeSlot(node.t, isNull, old(r.Rest())), o,
                        node.Pending(), r.Rest())
    ensures o.OverCapacity? ==> Exceeded(node.t, old(node.Held()), node.Pending())
    decreases node.t, 4
  {
    hide Exceeded, Node.Ok, Node.Held, Node.Pending, Passes, Charge, Add, Decode, TallyOf;
    ghost var x := Decode(node.t, r.Rest());
    if isNull {
      AddZero(node.t, node.Pending());
      return Fine;
    }
    if x.Ok? { CodecRows.DecodedHasType(node.t, r.Rest()); }
    o := SkipValue(node, r);
  }

  method SkipValue(node: Node, r: Reader) returns (o: Outcome)
    requires node.Ok() && r.Valid() && TallyOf(node.t, node.Pending())
    modifies node.Budgets(), r
    ensures r.Valid()
    ensures Verdict(node.t, old(node.Held()), old(node.Pending()), Decode(node.t, old(r.Rest())), o, node.Pending(), r.Rest())
    ensures o.OverCapacity? ==> Exceeded(node.t, old(node.Held()), node.Pending())
    decreases node.t, 3
  {
    hide Exceeded, Node.Ok, Node.Held, Node.Pending, Passes, Charge, Add, DecodeList, DecodeElems, DecodeFields, TallyOf, Flags;
    match node.t {
      case Struct(_) => o := SkipStruct(node, r);
      case List(_, _) =>
        var n := r.ReadU32();
        if n.None? { return Malformed; }
        if BitfieldBytes(n.value) > r.Remaining() {
          ListTooShort(Kids(node.t)[0], n.value, r.Rest());
          return Malformed;
        }
        o := SkipElements(node, r, n.value);
      case FixedSizeList(n, _) => o := SkipElements(node, r, n);
      case Map(_, _) => o := SkipMap(node, r);
      case Union(_, _, _) => o := SkipUnion(node, r);
      case _ => o := SkipScalar(node, r);
    }
  }

  lemma {:induction false} ListTooShort(t: Type, n: nat, s: bytes)
    requires BitfieldBytes(n) > |s|
    ensures DecodeList(t, n, s).Err?
  {
  }
}
