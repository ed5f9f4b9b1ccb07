/** The second walk of `BatchDecoder::Append`: the same descent over bytes that are known to parse,
    now filling the builders.  Every read succeeds, and what ends up in the builders is what
    appending the decoded value would leave there. */
module BatchAppend {
  import opened Wire
  import opened RowTypes
  import opened CodecSpec
  import opened RowReader
  import CodecRows
  import opened Columns
  import Builders
  import opened Budget
  import opened SkipSpec
  import opened BatchTree
  import opened BatchSkip

  lemma {:induction false} LeafAppend(b: Buf, v: Value)
    ensures b.BoolBuf? && v.BoolV? ==> Builders.AppendValue(b, v) == BoolBuf(b.valid + [true], b.bits + [v.b])
    ensures b.FixedBuf? && v.FixedV? ==> Builders.AppendValue(b, v) == FixedBuf(b.valid + [true], b.width, b.raw + v.raw)
    ensures b.VarBuf? && v.VarV? ==>
              Builders.AppendValue(b, v) == VarBuf(b.valid + [true], b.starts + [|b.data|], b.data + v.data)
  {
  }

  lemma {:induction false} LeafDecode(t: Type, s: bytes)
    ensures t.Bool? ==> Decode(t, s) == if |s| < 1 then Err else Ok(BoolV(s[0] != 0), s[1..])
    ensures t.Fixed? ==> Decode(t, s) == if |s| < t.width then Err else Ok(FixedV(s[..t.width]), s[t.width..])
    ensures t.VarLen? ==>
              Decode(t, s) == match TakeU32(s)
                              case Err => Err
                              case Ok(n, r) => if |r| < n then Err else Ok(VarV(r[..n]), r[n..])
  {
  }

  method AppendScalar(node: Node, r: Reader)
    requires node.Ok() && r.Valid() && Decode(node.t, r.Rest()).Ok?
    requires node.t.Bool? || node.t.Fixed? || node.t.VarLen?
    modifies node.builder, r
    ensures r.Valid() && r.Rest() == Decode(node.t, old(r.Rest())).rest
    ensures node.builder.Column() == Builders.AppendValue(old(node.builder.Column()), Decode(node.t, old(r.Rest())).val)
  {
    hide Node.Ok, Builder.Ok, Builder.Column, TypeOk, Decode, Builders.AppendValue;
    node.Links();
    var b := node.builder;
    LeafDecode(node.t, r.Rest());
    b.LeafShape();
    LeafAppend(b.Column(), Decode(node.t, r.Rest()).val);
    match node.t {
      case Bool =>
        var x := r.ReadBytes(1);
        b.valid, b.bits := b.valid + [true], b.bits + [x.value[0] != 0];
      case Fixed(w) =>
        var x := r.ReadBytes(w);
        b.valid, b.raw := b.valid + [true], b.raw + x.value;
      case VarLen(_) =>
        var n := r.ReadU32();
        var x := r.ReadBytes(n.value);
        b.valid, b.starts, b.data := b.valid + [true], b.starts + [|b.data|], b.data + x.value;
    }
    b.LeafShape();
  }

  method AppendSlot(node: Node, isNull: bool, r: Reader)
    requires node.Ok() && r.Valid() && DecodeSlot(node.t, isNull, r.Rest()).Ok?
    modifies node.builder.Repr, r
    ensures r.Valid() && r.Rest() == DecodeSlot(node.t, isNull, old(r.Rest())).rest
    ensures node.builder.Column()
         == Builders.AppendSlot(old(node.builder.Column()), DecodeSlot(node.t, isNull, old(r.Rest())).val)
    decreases node.t, 4
  {
    hide Node.Ok, Decode, Builders.AppendNulls, Builders.AppendValue, Builder.Column;
    node.Links();
    if isNull {
      node.builder.AppendNulls(1);
    } else {
      CodecRows.DecodedHasType(node.t, r.Rest());
      AppendValue(node, r);
    }
  }

  method AppendSlots(node: Node, nulls: seq<bool>, r: Reader)
    requires node.Ok() && r.Valid() && DecodeElems(node.t, nulls, r.Rest()).Ok?
    modifies node.builder.Repr, r
    ensures r.Valid() && r.Rest() == DecodeElems(node.t, nulls, old(r.Rest())).rest
    ensures node.builder.Column()
         == Builders.AppendElems(old(node.builder.Column()), DecodeElems(node.t, nulls, old(r.Rest())).val)
    decreases node.t, 5
  {
    hide Node.Ok, DecodeSlot, DecodeElems, Builders.AppendSlot, Builders.AppendElems, Builder.Column;
    node.Links();
    ghost var d := DecodeElems(node.t, nulls, r.Rest());
    ghost var goal := Builders.AppendElems(node.builder.Column(), d.val);
    assert nulls[0..] == nulls;
    for i := 0 to |nulls|
      invariant r.Valid() && AppendsTo(node.t, node.builder.Column(), nulls[i..], r.Rest(), goal, d.rest)
    {
      AppendsStep(node.t, node.builder.Column(), nulls, i, r.Rest(), goal, d.rest);
      AppendSlot(node, nulls[i], r);
    }
    AppendsEnd(node.t, node.builder.Column(), nulls, r.Rest(), goal, d.rest);
  }

  /** Appending the slots still to be read to `b` gives `goal`. */
  ghost predicate AppendsTo(t: Type, b: Buf, nulls: seq<bool>, s: bytes, goal: Buf, rest: bytes)
  {
    var d := DecodeElems(t, nulls, s);
    d.Ok? && Builders.AppendElems(b, d.val) == goal && d.rest == rest
  }

  lemma {:induction false} AppendsStep(t: Type, b: Buf, nulls: seq<bool>, i: nat, s: bytes, goal: Buf, rest: bytes)
    requires i < |nulls| && AppendsTo(t, b, nulls[i..], s, goal, rest)
    ensures var x := DecodeSlot(t, nulls[i], s);
            x.Ok? && AppendsTo(t, Builders.AppendSlot(b, x.val), nulls[i + 1..], x.rest, goal, rest)
  {
    hide DecodeSlot, Builders.AppendSlot;
    assert nulls[i..][1..] == nulls[i + 1..];
    var x := DecodeSlot(t, nulls[i], s);
    var d := DecodeElems(t, nulls[i + 1..], x.rest);
    assert ([x.val] + d.val)[1..] == d.val;
  }

  lemma AppendsEnd(t: Type, b: Buf, nulls: seq<bool>, s: bytes, goal: Buf, rest: bytes)
    requires AppendsTo(t, b, nulls[|nulls|..], s, goal, rest)
    ensures b == goal && s == rest
  {
  }

  /** A list builder that began a slot and then got the slot's elements has appended the list. */
  lemma {:induction false} ListAppended(b: Builder, was: Buf, starts: seq<nat>, vs: seq<Value>)
    requires b.Ok() && (if b.t.List? then was.ListBuf? && starts == was.starts + [was.kid.len]
                        else b.t.FixedSizeList? && was.FslBuf? && was.size == b.t.size)
    requires |b.kids| == 1 && b.kids[0].Ok() && b.valid == was.valid + [true] && (b.t.List? ==> b.starts == starts)
    requires b.kids[0].Column() == Builders.AppendList(was.kid.buf, vs)
    ensures b.Column() == Builders.AppendValue(was, ListV(vs))
  {
    hide Builder.Ok, Builder.Column, Builders.AppendList, Builders.AppendElems, Builders.AppendNulls, Builders.AppendFields, Whole;
    b.Parts();
  }

  lemma {:induction false} ListParts(b: Builder)
    requires b.Ok() && (b.t.List? || b.t.FixedSizeList?)
    ensures |b.kids| == 1 && b.kids[0].Ok() && Slots(b.kids[0].Column()) == b.kids[0].Length()
    ensures if b.t.List? then b.Column() == ListBuf(b.valid, b.starts, Whole(b.kids[0].Column()))
            else b.Column() == FslBuf(b.valid, b.t.size, Whole(b.kids[0].Column()))
  {
  }

  /** A list body: the slot itself, then one bulk copy, one run of nulls or one value at a time. */
  method AppendElements(node: Node, r: Reader, count: nat)
    requires node.Ok() && r.Valid() && (node.t.List? || node.t.FixedSizeList?)
    requires DecodeList(Kids(node.t)[0], count, r.Rest()).Ok?
    modifies node.builder.Repr, r
    ensures r.Valid() && r.Rest() == DecodeList(Kids(node.t)[0], count, old(r.Rest())).rest
    ensures node.builder.Column()
         == Builders.AppendValue(old(node.builder.Column()), ListV(DecodeList(Kids(node.t)[0], count, old(r.Rest())).val))
    decreases node.t, 2
  {
    hide Node.Ok, Builder.Ok, Builder.Column, TypeOk, DecodeElems, Flags, BitfieldBytes, Builders.AppendList,
      Builders.AppendValue;
    node.Links();
    var b, elem := node.builder, node.children[0];
    b.Shape();
    ListParts(b);
    ghost var was := b.Column();
    var bf := r.ReadBytes(BitfieldBytes(count));
    b.Begin();
    ghost var starts := b.starts;
    AppendRun(elem, bf.value, count, r);
    ListAppended(b, was, starts, DecodeList(elem.t, count, old(r.Rest())).val);
  }

  method AppendRun(elem: Node, bf: bytes, count: nat, r: Reader)
    requires elem.Ok() && r.Valid() && |bf| == BitfieldBytes(count)
    requires DecodeElems(elem.t, Flags(bf, count), r.Rest()).Ok?
    modifies elem.builder.Repr, r
    ensures r.Valid() && r.Rest() == DecodeElems(elem.t, Flags(bf, count), old(r.Rest())).rest
    ensures elem.builder.Column()
         == Builders.AppendList(old(elem.builder.Column()), DecodeElems(elem.t, Flags(bf, count), old(r.Rest())).val)
    decreases elem.t, 6
  {
    hide Node.Ok, Builder.Ok, TypeOk, Builder.Column, DecodeElems, Flags, BitfieldBytes, Builders.AppendElems, Builders.AppendNulls;
    elem.Links();
    ghost var s, was, nulls := r.Rest(), elem.builder.Column(), Flags(bf, count);
    CodecRows.ElemsHaveType(elem.t, nulls, s);
    if count == 0 {
      NothingAppended(was);
      AllNullElems(elem.t, nulls, s);
      return;
    }
    var allValid := AllValid(bf, count);
    if elem.width > 0 && allValid {
      AllValidMeansNoNulls(bf, count);
      assert !NullFlags(DecodeElems(elem.t, nulls, s).val)[0];
      AppendFixedRun(elem, count, r);
      return;
    }
    var allNull := AllNull(bf, count);
    if allNull {
      AllNullElems(elem.t, nulls, s);
      elem.builder.AppendNulls(count);
      return;
    }
    AppendSlots(elem, Flags(bf, count), r);
  }

  /** An all-valid run of a fixed-width type goes in with one copy. */
  method AppendFixedRun(elem: Node, count: nat, r: Reader)
    requires elem.Ok() && r.Valid() && elem.width > 0 && DecodeElems(elem.t, seq(count, _ => false), r.Rest()).Ok?
    modifies elem.builder.Repr, r
    ensures r.Valid() && r.Rest() == DecodeElems(elem.t, seq(count, _ => false), old(r.Rest())).rest
    ensures elem.builder.Column()
         == Builders.AppendElems(old(elem.builder.Column()), DecodeElems(elem.t, seq(count, _ => false), old(r.Rest())).val)
  {
    hide Node.Ok, Builder.Ok, TypeOk, Builder.Column, DecodeElems, RunValues, Builders.AppendElems, Builders.AppendRun;
    elem.Links();
    elem.builder.Shape();
    ghost var s, was := r.Rest(), elem.builder.Column();
    RunIsElements(elem.t, count, s);
    DivideNeverMultiply(count, elem.width, |s|);
    var run := r.ReadBytes(count * elem.width);
    Builders.RunIsAppends(elem.t, was, run.value, count) by { elem.builder.LeafShape(); }
    elem.builder.AppendRun(run.value, count);
  }

  lemma {:induction false} NothingAppended(b: Buf)
    ensures Builders.AppendList(b, []) == b
  {
  }

  lemma {:induction false} MapAppend(b: Buf, v: Value)
    requires b.MapBuf? && v.MapV?
    ensures Builders.AppendValue(b, v)
         == MapBuf(b.valid + [true], b.starts + [b.items.len],
                   Whole(Builders.AppendElems(b.keys.buf, v.keys)), Whole(Builders.AppendElems(b.items.buf, v.items)))
  {
    hide Builders.AppendElems, Builders.AppendSlot, Builders.AppendNulls, Builders.AppendList, Builders.AppendFields, Whole;
  }

  method AppendMap(node: Node, r: Reader)
    requires node.Ok() && r.Valid() && node.t.Map? && Decode(node.t, r.Rest()).Ok?
    modifies node.builder.Repr, r
    ensures r.Valid() && r.Rest() == Decode(node.t, old(r.Rest())).rest
    ensures node.builder.Column() == Builders.AppendValue(old(node.builder.Column()), Decode(node.t, old(r.Rest())).val)
    decreases node.t, 2
  {
    hide Node.Ok, Builder.Ok, Builder.Column, TypeOk, Decode, DecodeElems, DecodeList, Builders.AppendElems, Builders.AppendList,
      Builders.AppendValue;
    node.Links();
    var b, keys, items := node.builder, node.children[0], node.children[1];
    b.Shape();
    b.KidOk(0);
    b.Parts();
    MapUnfold(node.t, r.Rest());
    ghost var v := Decode(node.t, r.Rest()).val;
    MapAppend(b.Column(), v);
    var n := r.ReadU32();
    b.Begin();
    AppendSlots(keys, seq(n.value, _ => false), r);
    AppendMapItems(items, n.value, r);
    b.Parts();
  }

  method AppendMapItems(items: Node, count: nat, r: Reader)
    requires items.Ok() && r.Valid() && DecodeList(items.t, count, r.Rest()).Ok?
    modifies items.builder.Repr, r
    ensures r.Valid() && r.Rest() == DecodeList(items.t, count, old(r.Rest())).rest
    ensures items.builder.Column()
         == Builders.AppendElems(old(items.builder.Column()), DecodeList(items.t, count, old(r.Rest())).val)
    decreases items.t, 6
  {
    hide Node.Ok, Builder.Column, DecodeElems, Flags, Builders.AppendElems;
    items.Links();
    var bf := r.ReadBytes(BitfieldBytes(count));
    AppendSlots(items, Flags(bf.value, count), r);
  }

  method AppendUnion(node: Node, r: Reader)
    requires node.Ok() && r.Valid() && node.t.Union? && Decode(node.t, r.Rest()).Ok?
    modifies node.builder.Repr, r
    ensures r.Valid() && r.Rest() == Decode(node.t, old(r.Rest())).rest
    ensures node.builder.Column() == Builders.AppendValue(old(node.builder.Column()), Decode(node.t, old(r.Rest())).val)
    decreases node.t, 2
  {
    hide Node.Ok, Builder.Column, Decode, Builders.AppendValue;
    node.Links();
    node.CodeTable();
    UnionUnfold(node.t, r.Rest());
    var x := r.ReadBytes(1);
    AppendArm(node, x.value[0], node.codeToChild[x.value[0]], r);
  }

  lemma {:induction false} UnionAppend(b: Buf, v: Value, arm: nat)
    requires b.UnionBuf? && v.UnionV? && ChildId(b.codes, v.code) == arm < |b.kids|
    ensures Builders.AppendValue(b, v)
         == UnionBuf(b.dense, b.codes, b.ids + [v.code], if b.dense then b.places + [b.kids[arm].len] else b.places,
                     (if b.dense then b.kids else Builders.NullKids(b.kids))
                     [arm := Whole(Builders.AppendValue(b.kids[arm].buf, v.arm))])
  {
    hide Builders.NullKids, Builders.AppendElems, Builders.AppendNulls, Builders.AppendList, Builders.AppendFields;
  }

  method AppendArm(node: Node, code: nat, arm: nat, r: Reader)
    requires node.Ok() && r.Valid() && node.t.Union? && ChildId(node.t.codes, code) == arm < |node.t.arms|
    requires Decode(node.t.arms[arm], r.Rest()).Ok?
    modifies node.builder.Repr, r
    ensures r.Valid() && r.Rest() == Decode(node.t.arms[arm], old(r.Rest())).rest
    ensures node.builder.Column()
         == Builders.AppendValue(old(node.builder.Column()), UnionV(code, Decode(node.t.arms[arm], old(r.Rest())).val))
    decreases node.t, 1
  {
    hide Node.Ok, Builder.Ok, Builder.Column, Builder.KidColumns, TypeOk, Decode, Builders.AppendValue, Builders.NullKids;
    node.Links();
    var b, child := node.builder, node.children[arm];
    b.Shape();
    b.KidOk(arm);
    b.Parts();
    b.KidColumnsAt();
    ghost var was := b.KidColumns();
    UnionAppend(b.Column(), UnionV(code, Decode(child.t, r.Rest()).val), arm);
    b.ids := b.ids + [code];
    if node.t.dense {
      b.places := b.places + [child.builder.Length()];
    } else {
      b.NullOthers(arm);
    }
    b.KidColumnsAt();
    AppendValue(child, r);
    b.KidColumnsAre((if node.t.dense then was else Builders.NullKids(was))[arm := Whole(child.builder.Column())]);
    b.Parts();
  }

  method AppendStruct(node: Node, r: Reader)
    requires node.Ok() && r.Valid() && node.t.Struct? && Decode(node.t, r.Rest()).Ok?
    modifies node.builder.Repr, r
    ensures r.Valid() && r.Rest() == Decode(node.t, old(r.Rest())).rest
    ensures node.builder.Column() == Builders.AppendValue(old(node.builder.Column()), Decode(node.t, old(r.Rest())).val)
    decreases node.t, 2
  {
    hide Node.Ok, Builder.Ok, Builder.Column, Builder.KidColumns, TypeOk, Decode, DecodeFields, Flags, Builders.AppendFields,
      Builders.AppendValue;
    node.Links();
    var b, ts := node.builder, node.t.fields;
    b.Shape();
    b.Parts();
    StructUnfold(ts, r.Rest());
    StructAppend(b.Column(), Decode(node.t, r.Rest()).val);
    var bf := r.ReadBytes(BitfieldBytes(|ts|));
    b.valid := b.valid + [true];
    AppendFields(node, Flags(bf.value, |ts|), r);
    b.Parts();
  }

  lemma {:induction false} StructAppend(b: Buf, v: Value)
    requires b.StructBuf? && v.StructV?
    ensures Builders.AppendValue(b, v) == StructBuf(b.valid + [true], Builders.AppendFields(b.kids, v.fields))
  {
    hide Builders.AppendElems, Builders.AppendNulls, Builders.AppendList, Builders.AppendFields;
  }

  method AppendFields(node: Node, nulls: seq<bool>, r: Reader)
    requires node.Ok() && r.Valid() && node.t.Struct? && |nulls| == |node.t.fields|
    requires DecodeFields(node.t.fields, nulls, r.Rest()).Ok?
    modifies node.builder.KidRepr(), r
    ensures r.Valid() && r.Rest() == DecodeFields(node.t.fields, nulls, old(r.Rest())).rest
    ensures node.builder.Ok() && node.builder.KidColumns()
         == Builders.AppendFields(old(node.builder.KidColumns()), DecodeFields(node.t.fields, nulls, old(r.Rest())).val)
    decreases node.t, 1
  {
    hide Node.Ok, Builder.Ok, Builder.Column, Builder.KidColumns, TypeOk, Decode, DecodeSlot, DecodeFields, Builders.AppendFields,
      Builders.AppendSlot, Builders.AppendValue;
    node.Links();
    var b, ts := node.builder, node.t.fields;
    b.Shape();
    b.KidColumnsAt();
    ghost var s, d, was := r.Rest(), DecodeFields(ts, nulls, r.Rest()), b.KidColumns();
    ghost var vs := d.val;
    CodecRows.FieldsHaveTypes(ts, nulls, r.Rest());
    ghost var goal := Builders.AppendFields(was, vs);
    FieldsAppendAt(was, vs);
    assert ts[0..] == ts && nulls[0..] == nulls && vs[0..] == vs;
    for i := 0 to |ts|
      invariant r.Valid() && DecodeFields(ts[i..], nulls[i..], r.Rest()) == Ok(vs[i..], d.rest)
      invariant forall k | 0 <= k < i :: Whole(b.kids[k].Column()) == goal[k]
      invariant forall k | i <= k < |ts| :: b.kids[k].Column() == was[k].buf
    {
      FieldStep(ts, nulls, vs, i, r.Rest(), d.rest);
      b.KidOk(i);
      AppendSlot(node.children[i], nulls[i], r);
    }
    FieldsDone(ts, nulls, vs, r.Rest(), d.rest);
    b.KidColumnsAre(goal);
  }

  lemma {:induction false} FieldsAppendAt(kids: seq<Arr>, vs: seq<Value>)
    requires |kids| == |vs|
    ensures forall k | 0 <= k < |vs| :: Builders.AppendFields(kids, vs)[k] == Whole(Builders.AppendSlot(kids[k].buf, vs[k]))
  {
    hide Builders.AppendSlot;
  }

  lemma {:induction false} FieldStep(ts: seq<Type>, nulls: seq<bool>, vs: seq<Value>, i: nat, s: bytes, rest: bytes)
    requires i < |ts| == |nulls| == |vs| && DecodeFields(ts[i..], nulls[i..], s) == Ok(vs[i..], rest)
    ensures var x := DecodeSlot(ts[i], nulls[i], s);
            x.Ok? && x.val == vs[i] && DecodeFields(ts[i + 1..], nulls[i + 1..], x.rest) == Ok(vs[i + 1..], rest)
  {
    hide DecodeSlot;
    assert ts[i..][1..] == ts[i + 1..] && nulls[i..][1..] == nulls[i + 1..] && vs[i..][1..] == vs[i + 1..];
    var x := DecodeSlot(ts[i], nulls[i], s);
    var d := DecodeFields(ts[i + 1..], nulls[i + 1..], x.rest);
    assert ([x.val] + d.val)[1..] == d.val && ([x.val] + d.val)[0] == x.val;
  }

  lemma {:induction false} FieldsDone(ts: seq<Type>, nulls: seq<bool>, vs: seq<Value>, s: bytes, rest: bytes)
    requires |ts| == |nulls| == |vs| && DecodeFields(ts[|ts|..], nulls[|ts|..], s) == Ok(vs[|ts|..], rest)
    ensures s == rest
  {
  }

  /** Replays a value that the validation walk accepted. */
  method AppendValue(node: Node, r: Reader)
    requires node.Ok() && r.Valid() && Decode(node.t, r.Rest()).Ok?
    modifies node.builder.Repr, r
    ensures r.Valid() && r.Rest() == Decode(node.t, old(r.Rest())).rest
    ensures node.builder.Column() == Builders.AppendValue(old(node.builder.Column()), Decode(node.t, old(r.Rest())).val)
    decreases node.t, 3
  {
    hide Node.Ok, Builder.Column, Builder.Ok, TypeOk, DecodeList, DecodeElems, DecodeFields, Flags, Builders.AppendValue;
    node.Links();
    node.builder.Shape();
    match node.t {
      case Struct(_) => AppendStruct(node, r);
      case List(_, _) =>
        var n := r.ReadU32();
        AppendElements(node, r, n.value);
      case FixedSizeList(n, _) => AppendElements(node, r, n);
      case Map(_, _) => AppendMap(node, r);
      case Union(_, _, _) => AppendUnion(node, r);
      case _ => AppendScalar(node, r);
    }
  }
}
