/** `BatchDecoder`: decodes rows straight into columns, each row entirely or not at all.

    The decoder's field list is held as one struct node: its children are the source's `roots`, and
    its own builder's length is the row count. */
module BatchDecoder {
  import opened Wire
  import opened RowTypes
  import opened CodecSpec
  import opened RowReader
  import opened Columns
  import opened Budget
  import opened Capacity
  import opened SkipSpec
  import opened BatchTree
  import opened BatchSkip
  import opened BatchAppend
  import opened BatchRun
  import opened Limits

  // ----- building the node tree -----

  /** Every node of the tree is reached through the children. */
  ghost predicate Closed(node: Node)
    requires node.Ok()
    decreases node.t
  {
    && (forall x | x in node.Repr :: x == node || exists k | 0 <= k < |node.children| :: x in node.children[k].Repr)
    && forall k | 0 <= k < |node.children| :: node.children[k].t < node.t && node.children[k].Ok() && Closed(node.children[k])
  }

  /** No counter of the tree is in use. */
  ghost predicate Cleared(nodes: set<Node>)
    reads nodes
  {
    forall n | n in nodes :: n.pending == 0 && n.arms == Builders.Rep(ArmCount(n.t), 0)
  }

  method BuildNode(builder: Builder) returns (node: Node)
    requires builder.Ok() && TypeOk(builder.t)
    ensures node.Ok() && node.builder == builder && node.t == builder.t && fresh(node.Repr)
    ensures Closed(node) && Cleared(node.Repr)
    decreases builder.t
  {
    hide TypeOk, Builder.Column, Builder.KidColumns;
    builder.Shape();
    var children: seq<Node> := [];
    for i := 0 to |builder.kids|
      invariant |children| == i
      invariant forall k | 0 <= k < i ::
                  && children[k].Ok() && children[k].builder == builder.kids[k] && fresh(children[k].Repr)
                  && Closed(children[k]) && Cleared(children[k].Repr)
      invariant forall j, k | 0 <= j < k < i :: children[j].Repr !! children[k].Repr
    {
      builder.KidOk(i);
      var child := BuildNode(builder.kids[i]);
      children := children + [child];
    }
    node := new Node(builder, children);
  }

  ghost function BudgetsOf(nodes: seq<Node>): set<Node>
  {
    if nodes == [] then {} else BudgetsOf(nodes[..|nodes| - 1]) + nodes[|nodes| - 1].Budgets()
  }

  lemma {:induction false} InBudgetsOf(nodes: seq<Node>, n: Node)
    ensures n in BudgetsOf(nodes) <==> exists k | 0 <= k < |nodes| :: n in nodes[k].Budgets()
    decreases |nodes|
  {
    hide Node.Budgets;
    if nodes != [] {
      var most, last := nodes[..|nodes| - 1], nodes[|nodes| - 1];
      InBudgetsOf(most, n);
      if exists k | 0 <= k < |nodes| :: n in nodes[k].Budgets() {
        var k :| 0 <= k < |nodes| && n in nodes[k].Budgets();
        if k < |most| { assert n in most[k].Budgets(); }
      }
      if exists k | 0 <= k < |most| :: n in most[k].Budgets() {
        var k :| 0 <= k < |most| && n in most[k].Budgets();
        assert n in nodes[k].Budgets();
      }
    }
  }

  lemma {:induction false} BudgetsSplit(node: Node)
    requires node.Ok() && Closed(node)
    ensures node.Budgets() == (if Budgeted(node.t) then {node} else {}) + BudgetsOf(node.children)
  {
    hide BudgetsOf;
    forall n | n in node.Budgets() && n != node
      ensures n in BudgetsOf(node.children)
    {
      InBudgetsOf(node.children, n);
      var k :| 0 <= k < |node.children| && n in node.children[k].Repr;
      assert n in node.children[k].Budgets();
    }
    forall n | n in BudgetsOf(node.children)
      ensures n in node.Budgets()
    {
      InBudgetsOf(node.children, n);
    }
  }

  /** `out` lists exactly the nodes of `all`. */
  ghost predicate Lists(out: seq<Node>, all: set<Node>)
  {
    (forall k | 0 <= k < |out| :: out[k] in all) && forall n | n in all :: n in out
  }

  lemma ListsJoin(a: seq<Node>, x: set<Node>, b: seq<Node>, y: set<Node>)
    requires Lists(a, x) && Lists(b, y)
    ensures Lists(a + b, x + y)
  {
  }

  lemma BudgetsNext(nodes: seq<Node>, i: nat)
    requires i < |nodes|
    ensures BudgetsOf(nodes[..i + 1]) == BudgetsOf(nodes[..i]) + nodes[i].Budgets()
  {
    hide Node.Budgets;
    assert nodes[..i + 1][..i] == nodes[..i];
  }

  lemma OwnListed(node: Node)
    ensures Lists([node], {node} + BudgetsOf([])) && Lists([], {} + BudgetsOf([]))
  {
  }

  /** Gathers the nodes with 32-bit offsets. */
  method CollectBudgeted(node: Node) returns (out: seq<Node>)
    requires node.Ok() && Closed(node)
    ensures Lists(out, node.Budgets())
    decreases node.t
  {
    hide Node.Ok, Node.Budgets, Budgeted, BudgetsOf, Lists;
    node.Links();
    OwnListed(node);
    out := if Budgeted(node.t) then [node] else [];
    ghost var own := if Budgeted(node.t) then {node} else {};
    assert node.children[..0] == [];
    for i := 0 to |node.children|
      invariant Lists(out, own + BudgetsOf(node.children[..i]))
    {
      var more := CollectBudgeted(node.children[i]);
      BudgetsNext(node.children, i);
      ghost var seen, next := own + BudgetsOf(node.children[..i]), node.children[i].Budgets();
      ListsJoin(out, seen, more, next);
      assert own + (BudgetsOf(node.children[..i]) + next) == seen + next;
      out := out + more;
    }
    assert node.children[..|node.children|] == node.children;
    BudgetsSplit(node);
  }

  lemma {:induction false} ClearedPending(node: Node)
    requires node.Ok() && Cleared(node.Repr)
    ensures node.Pending() == Zero(node.t)
    decreases node.t
  {
    forall k | 0 <= k < |node.children|
      ensures node.KidsPending()[k] == Zero(Kids(node.t)[k])
    {
      ClearedPending(node.children[k]);
    }
    assert node.KidsPending() == Zeros(node.t);
  }

  lemma {:induction false} HeldIs(node: Node)
    requires node.Ok()
    ensures node.Held() == Load(true, node.t, node.builder.Column())
  {
  }

  /** What the validation walk's verdict says about the row. */
  lemma {:induction false} RowJudged(schema: seq<Type>, table: Buf, data: bytes, o: Outcome, p: Tally, rest: bytes)
    requires var t := Struct(schema); Verdict(t, Load(true, t, table), Zero(t), Decode(t, data), o, p, rest)
    ensures o.Malformed? ==> DecodeRow(schema, data).Err?
    ensures !o.Fine? ==> !Accepts(schema, table, data)
    ensures o.Fine? && rest != [] ==> DecodeRow(schema, data).Err? && !Accepts(schema, table, data)
    ensures o.Fine? && rest == [] ==>
              && Accepts(schema, table, data) && DecodeRow(schema, data).Ok?
              && p == Charge(true, Struct(schema), StructV(DecodeRow(schema, data).val))
              && Decode(Struct(schema), data) == Ok(StructV(DecodeRow(schema, data).val), [])
  {
    hide Decode, Passes, Load, Charge, Zero, Add, TallyOf;
    var t := Struct(schema);
    var d := Decode(t, data);
    if d.Ok? {
      DecodedIsStruct(schema, data);
      ChargeIsTally(true, t, d.val);
      AddZero(t, Charge(true, t, d.val));
    }
  }

  lemma {:induction false} RowIsStruct(schema: seq<Type>, data: bytes)
    requires DecodeRow(schema, data).Ok?
    ensures Decode(Struct(schema), data) == Ok(StructV(DecodeRow(schema, data).val), [])
  {
    hide Decode;
  }

  lemma {:induction false} DecodedIsStruct(schema: seq<Type>, data: bytes)
    requires Decode(Struct(schema), data).Ok?
    ensures Decode(Struct(schema), data).val.StructV?
  {
    hide DecodeFields, Flags;
  }

  class Decoder {
    const schema: seq<Type>
    const root: Node
    const budgeted: seq<Node>
    var rows: nat
    ghost var offered: seq<bytes>

    /** The trees are what the constructor made them. */
    ghost predicate Wired()
    {
      TypesOk(schema) && root.Ok() && root.t == Struct(schema) && Lists(budgeted, root.Budgets())
    }

    /** The columns and the row count are those of the rows offered since the batch began. */
    ghost predicate Valid()
      reads this, root.Repr, root.builder.Repr
    {
      && Wired() && Cleared(root.Repr - root.Budgets())
      && Table() == Run(schema, offered) && rows == |Accepted(schema, offered)|
    }

    /** The columns, as one struct column. */
    ghost function Table(): Buf
      requires root.Ok()
      reads root.builder.Repr
    {
      root.builder.Column()
    }

    constructor (schema: seq<Type>)
      requires TypesOk(schema)
      ensures Valid() && this.schema == schema && offered == []
      ensures fresh(root.Repr) && fresh(root.builder.Repr)
    {
      hide Builder.Column, Builder.KidColumns;
      var builder := MakeBuilder(Struct(schema));
      var node := BuildNode(builder);
      var nodes := CollectBudgeted(node);
      this.schema, root, budgeted, rows, offered := schema, node, nodes, 0, [];
      EmptyIsBuilt(Struct(schema));
    }

    /** Clears the counters that the last row may have left behind. */
    method ResetPending()
      requires Wired() && Cleared(root.Repr - root.Budgets())
      modifies root.Budgets()
      ensures root.Pending() == Zero(root.t) && root.Held() == old(root.Held())
    {
      hide Node.Ok, Node.Held, TypesOk;
      for i := 0 to |budgeted|
        invariant forall k | 0 <= k < i ::
                    budgeted[k].pending == 0 && budgeted[k].arms == Builders.Rep(ArmCount(budgeted[k].t), 0)
      {
        budgeted[i].pending := 0;
        budgeted[i].arms := Builders.Rep(ArmCount(budgeted[i].t), 0);
      }
      ClearedPending(root);
    }

    /** The first pass: judges the row without touching a builder. */
    method Validate(data: bytes) returns (o: Outcome)
      requires Wired() && Cleared(root.Repr - root.Budgets())
      modifies root.Budgets()
      ensures Table() == old(Table()) && (o.Fine? <==> Accepts(schema, old(Table()), data))
      ensures o.Malformed? ==> DecodeRow(schema, data).Err?
      ensures o.OverCapacity? ==> Exceeded(root.t, Load(true, root.t, old(Table())), root.Pending())
      ensures o.Fine? ==> root.Pending() == Charge(true, root.t, StructV(DecodeRow(schema, data).val))
    {
      hide Exceeded, Node.Ok, Node.Pending, Node.Held, TypesOk, Builder.Column, Decode, DecodeRow, Accepts, Charge, TallyOf, Load, Verdict;
      ghost var table := Table();
      HeldIs(root);
      root.Links();
      ResetPending();
      ZeroIsTally(root.t);
      var r := new Reader(data);
      o := SkipStruct(root, r);
      RowJudged(schema, table, data, o, root.Pending(), r.Rest());
      if o.Fine? && r.Remaining() != 0 { return Malformed; }
    }

    /** The second pass: replays a row that the first one accepted. */
    method Fill(data: bytes)
      requires Wired() && Accepts(schema, Table(), data)
      modifies root.builder.Repr
      ensures Table() == Step(schema, old(Table()), data)
    {
      hide Node.Ok, TypesOk, Builder.Column, Decode, Builders.AppendValue, HasRoom;
      ghost var table := Table();
      root.Links();
      RowIsStruct(schema, data);
      var r := new Reader(data);
      AppendStruct(root, r);
    }

    /** Appends one row or leaves every builder and the row count as they were. */
    method Append(data: bytes) returns (o: Outcome)
      requires Valid()
      modifies this, root.Repr, root.builder.Repr
      ensures Valid() && offered == old(offered) + [data]
      ensures o.Fine? <==> Accepts(schema, old(Table()), data)
      ensures o.Malformed? ==> DecodeRow(schema, data).Err?
      ensures o.OverCapacity? ==> Exceeded(root.t, Load(true, root.t, old(Table())), root.Pending())
      ensures Table() == Step(schema, old(Table()), data) && rows == old(rows) + if o.Fine? then 1 else 0
      ensures DecodeRow(schema, data).Ok? ==>
                var room := RoomFor(Struct(schema), old(Table()), StructV(DecodeRow(schema, data).val));
                (o.Fine? <==> room) && (o.OverCapacity? <==> !room)
      ensures !o.Fine? ==> unchanged(root.builder.Repr)
      ensures o.Fine? ==> root.Pending() == Charge(true, root.t, StructV(DecodeRow(schema, data).val))
    {
      hide Exceeded, Node.Ok, Node.Pending, TypesOk, Built, Builder.Column, DecodeRow, Accepts, Charge, Load, Builders.AppendValue, Slots,
        RoomFor;
      if DecodeRow(schema, data).Ok? { TakenIff(schema, offered, data); }
      o := Validate(data);
      offered := offered + [data];
      assert offered[..|offered| - 1] == old(offered);
      if !o.Fine? { return; }
      Fill(data);
      rows := rows + 1;
    }

    /** Hands the columns over and starts the next batch. */
    method Finish() returns (batch: seq<Arr>, count: nat)
      requires Valid()
      modifies this, root.builder.Repr
      ensures Valid() && offered == []
      ensures count == |Accepted(schema, old(offered))| && Run(schema, old(offered)).StructBuf? && batch == Run(schema, old(offered)).kids
      ensures Holds(schema, Run(schema, old(offered)), Accepted(schema, old(offered)))
    {
      hide Node.Ok, TypesOk, Built, Builder.Column, Holds;
      BatchRefinesCodec(schema, offered);
      root.Links();
      root.builder.Parts();
      var whole := root.builder.Finish();
      batch, count := whole.buf.kids, rows;
      rows, offered := 0, [];
    }
  }
}
