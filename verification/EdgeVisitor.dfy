/** The generator's decode visitor: the statements it emits for a field, and the loops that write them
    out line by line. */
module EdgeVisitor {
  import opened EdgeCode

  // ----- the shape of a field -----

  predicate IsLeaf(ir: Ir) { ir.node.ScalarN? || ir.node.StructN? }

  /** The list levels of a field, and what is below the innermost one. */
  function Depth(ir: Ir): nat
  {
    if ir.node.ListN? then 1 + Depth(ir.node.elem) else 0
  }

  function Core(ir: Ir): (core: Ir)
    ensures !core.node.ListN?
    ensures core == ir || core < ir
  {
    if ir.node.ListN? then Core(ir.node.elem) else ir
  }

  predicate IsNested(ir: Ir) { ir.node.ListN? && ir.node.elem.node.ListN? && IsLeaf(Core(ir)) }

  // ----- the emitted statements -----

  function LeafOf(ir: Ir): Leaf
    decreases ir, 0
  {
    match ir.node
    case ScalarN(t) => ScalarLeaf(t)
    case StructN(fields) => StructLeaf(Members(fields, 0))
    case _ => StructLeaf([])
  }

  /** The code of the fields of a class, the first at position `k`. */
  function Members(fields: seq<Ir>, k: nat): (ms: seq<Code>)
    ensures |ms| == |fields|
    decreases fields, 0
  {
    if fields == [] then [] else [Code(Emit(fields[0], k))] + Members(fields[1..], k + 1)
  }

  /** Header, resize and loop of list level `d` and of the levels below it. */
  function Levels(d: nat, depth: nat, leaf: Leaf): seq<Item>
    requires d <= depth
    decreases depth - d
  {
    if d == depth then [Run(StoreAt(depth, leaf))]
    else [Run(Header(d)), Run(Resize(d, d + 1 < depth)), Loop(OverHeader(d), Levels(d + 1, depth, leaf))]
  }

  function ReadOne(nullable: bool, k: nat, leaf: Leaf): seq<Item>
  {
    if nullable then [Guard(k, [Run(Store(leaf))], [Run(Reset)])]
    else if leaf.StructLeaf? then [Block([Run(Store(leaf))])]
    else [Run(Store(leaf))]
  }

  function ReadList(leaf: Leaf): seq<Item>
  {
    [Block([Run(Header(0)), Run(Clear(false)), Loop(OverHeader(0), [Run(Push(leaf))])])]
  }

  function ReadNested(nullable: bool, k: nat, depth: nat, leaf: Leaf): seq<Item>
  {
    if nullable then [Guard(k, [Run(Emplace)] + Levels(0, depth, leaf), [])] else [Block(Levels(0, depth, leaf))]
  }

  function ReadMap(key: Leaf, value: Leaf): seq<Item>
  {
    [Block([Run(MapCount), Run(NewKeys), Loop(OverMap, [Run(PushKey(key))]),
            Run(ValueBits), Run(Clear(true)), Loop(OverMap, [Run(PushPair(value))])])]
  }

  /** What is emitted for the field at position `k`; nothing for a shape the backend does not support. */
  function Emit(ir: Ir, k: nat): seq<Item>
    decreases ir, 1
  {
    match ir.node
    case ScalarN(_) => ReadOne(ir.nullable, k, LeafOf(ir))
    case StructN(_) => ReadOne(ir.nullable, k, LeafOf(ir))
    case ListN(e) =>
      if IsLeaf(e) then ReadList(LeafOf(e))
      else if IsNested(ir) then ReadNested(ir.nullable, k, Depth(ir), LeafOf(Core(ir)))
      else []
    case MapN(key, value) => if key.node.ScalarN? && IsLeaf(value) then ReadMap(LeafOf(key), LeafOf(value)) else []
    case _ => []
  }

  // ----- lines and statements -----

  predicate Stops(ls: seq<Line>) { ls == [] || ls[0] == Close || ls[0] == Otherwise }

  function Tail(ls: seq<Line>): (r: seq<Line>)
    ensures |r| <= |ls|
  {
    if ls == [] then [] else ls[1..]
  }

  /** The statements spelled by a run of lines, up to the brace that ends them. */
  function Parse(ls: seq<Line>): (r: (seq<Item>, seq<Line>))
    ensures |r.1| <= |ls|
    decreases |ls|
  {
    if Stops(ls) then ([], ls)
    else if ls[0].Do? then Follow(Run(ls[0].prim), ls, ls[1..])
    else
      var b := Parse(ls[1..]);
      if ls[0].OpenGuard? && b.1 != [] && b.1[0] == Otherwise then
        var n := Parse(b.1[1..]);
        Follow(Guard(ls[0].field, b.0, n.0), ls, Tail(n.1))
      else
        Follow(if ls[0].OpenGuard? then Guard(ls[0].field, b.0, [])
               else if ls[0].OpenLoop? then Loop(ls[0].over, b.0)
               else Block(b.0), ls, Tail(b.1))
  }

  function Follow(item: Item, all: seq<Line>, ls: seq<Line>): (r: (seq<Item>, seq<Line>))
    requires |ls| < |all|
    ensures |r.1| <= |all|
    decreases |all|, 0
  {
    var t := Parse(ls);
    ([item] + t.0, t.1)
  }

  /** The braces balance: the lines of a list of statements spell those statements and no others. */
  lemma {:induction false} LinesParse(items: seq<Item>, tail: seq<Line>)
    requires Stops(tail)
    ensures Parse(Lines(items) + tail) == (items, tail)
    decreases items, 0
  {
    if items == [] {
      assert [] + tail == tail;
    } else {
      var rest := Lines(items[1..]) + tail;
      assert Lines(items) + tail == LinesOf(items[0]) + rest;
      LinesParse(items[1..], tail);
      LineParses(items[0], rest);
      assert [items[0]] + items[1..] == items;
    }
  }

  lemma {:induction false} LineParses(item: Item, rest: seq<Line>)
    ensures Parse(LinesOf(item) + rest) == ([item] + Parse(rest).0, Parse(rest).1)
    decreases item, 1
  {
    var ls := LinesOf(item) + rest;
    match item
    case Run(p) => assert ls[1..] == rest;
    case Loop(over, body) =>
      assert ls[1..] == Lines(body) + ([Close] + rest);
      LinesParse(body, [Close] + rest);
      assert ([Close] + rest)[1..] == rest;
    case Block(body) =>
      assert ls[1..] == Lines(body) + ([Close] + rest);
      LinesParse(body, [Close] + rest);
      assert ([Close] + rest)[1..] == rest;
    case Guard(k, yes, no) =>
      GuardParses(k, yes, no, rest);
  }

  lemma {:induction false} GuardParses(k: nat, yes: seq<Item>, no: seq<Item>, rest: seq<Line>)
    ensures Parse(LinesOf(Guard(k, yes, no)) + rest) == ([Guard(k, yes, no)] + Parse(rest).0, Parse(rest).1)
    decreases Guard(k, yes, no), 0
  {
    var ls := LinesOf(Guard(k, yes, no)) + rest;
    assert ([Close] + rest)[1..] == rest;
    if no == [] {
      assert ls[1..] == Lines(yes) + ([Close] + rest);
      LinesParse(yes, [Close] + rest);
    } else {
      var other := Lines(no) + ([Close] + rest);
      assert ls[1..] == Lines(yes) + ([Otherwise] + other);
      LinesParse(yes, [Otherwise] + other);
      LinesParse(no, [Close] + rest);
      assert ([Otherwise] + other)[1..] == other;
    }
  }

  // ----- the visitor -----

  /** What the emitting loop writes in rounds `d` up to `n`. */
  function Openings(d: nat, n: nat, depth: nat): seq<Line>
    requires d <= n <= depth
    decreases n - d
  {
    if d == n then []
    else [Do(Header(d)), Do(Resize(d, d + 1 < depth)), OpenLoop(OverHeader(d))] + Openings(d + 1, n, depth)
  }

  /** The lines of list levels `d` and below: openings, the innermost store, closing braces. */
  function LevelText(d: nat, depth: nat, leaf: Leaf): seq<Line>
    requires d <= depth
  {
    Openings(d, depth, depth) + [Do(StoreAt(depth, leaf))] + seq(depth - d, _ => Close)
  }

  lemma Nest(a: Line, b: Line, c: Line, os: seq<Line>, m: Line, n: nat)
    ensures [a] + [b] + ([c] + (os + [m] + seq(n, _ => Close)) + [Close]) == ([a, b, c] + os) + [m] + seq(n + 1, _ => Close)
  {
    assert seq(n + 1, _ => Close) == seq(n, _ => Close) + [Close];
  }

  lemma {:induction false} LevelLines(d: nat, depth: nat, leaf: Leaf)
    requires d <= depth
    ensures Lines(Levels(d, depth, leaf)) == LevelText(d, depth, leaf)
    decreases depth - d
  {
    if d == depth {
      One(Run(StoreAt(depth, leaf)));
    } else {
      LevelLines(d + 1, depth, leaf);
      var inner := Levels(d + 1, depth, leaf);
      var loop := Loop(OverHeader(d), inner);
      var a, b := Run(Header(d)), Run(Resize(d, d + 1 < depth));
      Three(a, b, loop);
      hide Lines;
      Nest(Do(a.prim), Do(b.prim), OpenLoop(OverHeader(d)), Openings(d + 1, depth, depth), Do(StoreAt(depth, leaf)), depth - d - 1);
    }
  }

  lemma {:induction false} One(item: Item)
    ensures Lines([item]) == LinesOf(item)
  {
    assert [item][1..] == [] && LinesOf(item) + [] == LinesOf(item);
  }

  lemma {:induction false} Three(a: Item, b: Item, c: Item)
    ensures Lines([a, b, c]) == LinesOf(a) + LinesOf(b) + LinesOf(c)
  {
    hide LinesOf;
    One(c);
    assert [a, b, c][1..] == [b, c] && [b, c][1..] == [c];
    assert Lines([b, c]) == LinesOf(b) + LinesOf(c);
  }

  lemma {:induction false} LinesConcat(a: seq<Item>, b: seq<Item>)
    ensures Lines(a + b) == Lines(a) + Lines(b)
    decreases |a|
  {
    if a == [] {
      assert a + b == b;
    } else {
      assert (a + b)[0] == a[0] && (a + b)[1..] == a[1..] + b;
      LinesConcat(a[1..], b);
    }
  }

  lemma {:induction false} OpeningsSnoc(d: nat, n: nat, depth: nat)
    requires d <= n < depth
    ensures Openings(d, n + 1, depth) == Openings(d, n, depth) + [Do(Header(n)), Do(Resize(n, n + 1 < depth)), OpenLoop(OverHeader(n))]
    decreases n - d
  {
    if d < n { OpeningsSnoc(d + 1, n, depth); }
  }

  lemma Glue(a: seq<Line>, b: seq<Line>, c: seq<Line>, d: seq<Line>)
    ensures a + b + c + d == a + (b + c + d)
  {
  }

  class Visitor {
    const index: nat
    var out: seq<Line>

    constructor (index: nat)
      ensures this.index == index && out == []
    {
      this.index := index;
      out := [];
    }

    /** Writes the code of one field.  A map has a scalar key and a scalar or struct value. */
    method EmitField(ir: Ir)
      requires ir.node.MapN? ==> ir.node.key.node.ScalarN? && IsLeaf(ir.node.value)
      modifies this
      ensures out == old(out) + Lines(Emit(ir, index))
    {
      match ir.node {
        case ScalarN(_) => EmitOne(ir.nullable, LeafOf(ir));
        case StructN(_) => EmitOne(ir.nullable, LeafOf(ir));
        case ListN(e) =>
          if IsLeaf(e) {
            EmitRepeated(LeafOf(e));
          } else if e.node.ListN? {
            EmitNestedList(ir);
          }
        case MapN(key, value) => EmitMap(LeafOf(key), LeafOf(value));
        case _ =>
      }
    }

    method EmitOne(nullable: bool, leaf: Leaf)
      modifies this
      ensures out == old(out) + Lines(ReadOne(nullable, index, leaf))
    {
      One(Run(Store(leaf)));
      One(Run(Reset));
      if nullable {
        One(Guard(index, [Run(Store(leaf))], [Run(Reset)]));
        out := out + [OpenGuard(index), Do(Store(leaf)), Otherwise, Do(Reset), Close];
      } else if leaf.StructLeaf? {
        One(Block([Run(Store(leaf))]));
        out := out + [OpenBlock, Do(Store(leaf)), Close];
      } else {
        out := out + [Do(Store(leaf))];
      }
    }

    method EmitRepeated(leaf: Leaf)
      modifies this
      ensures out == old(out) + Lines(ReadList(leaf))
    {
      ListLines(leaf);
      out := out + [OpenBlock, Do(Header(0)), Do(Clear(false)), OpenLoop(OverHeader(0))];
      out := out + [Do(Push(leaf))];
      out := out + [Close, Close];
    }

    /** Counts the list levels, writes the opening of each, the innermost store and the braces. */
    method EmitNestedList(ir: Ir)
      requires ir.node.ListN? && ir.node.elem.node.ListN?
      modifies this
      ensures out == old(out) + if IsLeaf(Core(ir)) then Lines(ReadNested(ir.nullable, index, Depth(ir), LeafOf(Core(ir)))) else []
    {
      var depth, cur := 1, ir.node.elem;
      while cur.node.ListN?
        invariant depth + Depth(cur) == Depth(ir) && Core(cur) == Core(ir)
        decreases cur
      {
        depth := depth + 1;
        cur := cur.node.elem;
      }
      if !IsLeaf(cur) {
        return;
      }
      var leaf := LeafOf(cur);
      NestedLines(ir.nullable, index, depth, leaf);
      hide Lines, ReadNested, LeafOf, LevelText, Core, Depth;
      ghost var was := out;
      out := out + [if ir.nullable then OpenGuard(index) else OpenBlock];
      if ir.nullable {
        out := out + [Do(Emplace)];
      }
      ghost var head := if ir.nullable then [OpenGuard(index), Do(Emplace)] else [OpenBlock];
      assert out == was + head;
      EmitLevels(depth, leaf);
      out := out + [Close];
      Glue(was, head, LevelText(0, depth, leaf), [Close]);
    }

    /** The two emitting loops of a nested list. */
    method EmitLevels(depth: nat, leaf: Leaf)
      modifies this
      ensures out == old(out) + LevelText(0, depth, leaf)
    {
      ghost var was := out;
      assert was + [] == was;
      for d := 0 to depth
        invariant out == was + Openings(0, d, depth)
      {
        OpeningsSnoc(0, d, depth);
        out := out + [Do(Header(d)), Do(Resize(d, d + 1 < depth)), OpenLoop(OverHeader(d))];
      }
      out := out + [Do(StoreAt(depth, leaf))];
      was := out;
      for d := 0 to depth
        invariant out == was + seq(d, _ => Close)
      {
        out := out + [Close];
      }
    }

    method EmitMap(key: Leaf, value: Leaf)
      modifies this
      ensures out == old(out) + Lines(ReadMap(key, value))
    {
      MapLines(key, value);
      out := out + [OpenBlock, Do(MapCount), Do(NewKeys), OpenLoop(OverMap)];
      out := out + [Do(PushKey(key))];
      out := out + [Close, Do(ValueBits), Do(Clear(true)), OpenLoop(OverMap)];
      out := out + [Do(PushPair(value))];
      out := out + [Close, Close];
    }
  }

  lemma ListLines(leaf: Leaf)
    ensures Lines(ReadList(leaf))
         == [OpenBlock, Do(Header(0)), Do(Clear(false)), OpenLoop(OverHeader(0)), Do(Push(leaf)), Close, Close]
  {
    var loop := Loop(OverHeader(0), [Run(Push(leaf))]);
    One(Run(Push(leaf)));
    Three(Run(Header(0)), Run(Clear(false)), loop);
    One(Block([Run(Header(0)), Run(Clear(false)), loop]));
  }

  lemma NestedLines(nullable: bool, k: nat, depth: nat, leaf: Leaf)
    ensures Lines(ReadNested(nullable, k, depth, leaf))
         == (if nullable then [OpenGuard(k), Do(Emplace)] else [OpenBlock])
            + LevelText(0, depth, leaf) + [Close]
  {
    LevelLines(0, depth, leaf);
    var levels := Levels(0, depth, leaf);
    if nullable {
      One(Run(Emplace));
      LinesConcat([Run(Emplace)], levels);
      One(Guard(k, [Run(Emplace)] + levels, []));
    } else {
      One(Block(levels));
    }
  }

  lemma MapLines(key: Leaf, value: Leaf)
    ensures Lines(ReadMap(key, value))
         == [OpenBlock, Do(MapCount), Do(NewKeys), OpenLoop(OverMap), Do(PushKey(key)), Close,
             Do(ValueBits), Do(Clear(true)), OpenLoop(OverMap), Do(PushPair(value)), Close, Close]
  {
    var keys, pairs := Loop(OverMap, [Run(PushKey(key))]), Loop(OverMap, [Run(PushPair(value))]);
    One(Run(PushKey(key)));
    One(Run(PushPair(value)));
    var head, tail := [Run(MapCount), Run(NewKeys), keys], [Run(ValueBits), Run(Clear(true)), pairs];
    Three(Run(MapCount), Run(NewKeys), keys);
    Three(Run(ValueBits), Run(Clear(true)), pairs);
    LinesConcat(head, tail);
    assert head + tail == [Run(MapCount), Run(NewKeys), keys, Run(ValueBits), Run(Clear(true)), pairs];
    One(Block(head + tail));
  }
}
