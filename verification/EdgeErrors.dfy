/** Rows that the generic decoder refuses: what the emitted decoder does with them. */
module EdgeErrors {
  import opened Wire
  import opened RowTypes
  import opened CodecSpec
  import opened CodecLaws
  import opened EdgeCode
  import opened EdgeVisitor
  import opened EdgeDecode
  import opened EdgeAgree

  // ----- rows without a null that emitted code reads past -----

  /** Along the walk from `s`, no null flag is set that emitted code does not look at.  The walk goes as
      far as the bytes do. */
  ghost predicate Clear(ir: Ir, s: bytes)
    decreases ir, 0
  {
    match ir.node
    case StructN(fields) =>
      var bf := Take(s, BitfieldBytes(|fields|));
      bf.Ok? ==> ClearFields(fields, Flags(bf.val, |fields|), bf.rest)
    case ListN(e) =>
      var c := TakeU32(s);
      c.Ok? ==> ClearList(e, c.val, c.rest)
    case MapN(k, v) =>
      var c := ReadMapCount(s);
      c.Ok? ==>
        var ks := BlindElems(k, c.val, c.rest);
        ClearElems(k, c.val, c.rest) && (ks.Ok? ==> ClearList(v, c.val, ks.rest))
    case _ => true
  }

  ghost predicate ClearList(ir: Ir, n: nat, s: bytes)
    decreases ir, 2
  {
    var bf := Take(s, BitfieldBytes(n));
    bf.Ok? ==> true !in Flags(bf.val, n) && ClearElems(ir, n, bf.rest)
  }

  ghost predicate ClearElems(ir: Ir, n: nat, s: bytes)
    decreases ir, 1, n
  {
    n == 0 || (Clear(ir, s) && (Blind(ir, s).Ok? ==> ClearElems(ir, n - 1, Blind(ir, s).rest)))
  }

  ghost predicate ClearFields(fields: seq<Ir>, nulls: seq<bool>, s: bytes)
    requires |fields| == |nulls|
    decreases fields, 0
  {
    fields == [] ||
    (&& (if nulls[0] then Guarded(fields[0]) else Clear(fields[0], s))
     && var b := BlindField(fields[0], nulls[0], Null, s);
        b.Ok? ==> ClearFields(fields[1..], nulls[1..], b.rest))
  }

  /** On such bytes the two decoders agree in everything, refusals included. */
  lemma {:induction false} ClearAgrees(ir: Ir, s: bytes)
    requires Supported(ir) && Clear(ir, s)
    ensures Blind(ir, s) == Decode(WireType(ir), s)
    decreases ir, 0, 0
  {
    match ir.node
    case ScalarN(_) =>
    case StructN(fields) =>
      hide BlindFields, DecodeFields, WireTypes, Flags, ClearFields;
      var bf := Take(s, BitfieldBytes(|fields|));
      if bf.Ok? { ClearFieldsAgree(fields, Flags(bf.val, |fields|), bf.rest); }
    case ListN(e) =>
      hide BlindElems, DecodeElems, Flags, ClearElems;
      var c := TakeU32(s);
      if c.Ok? { ClearListAgrees(e, c.val, c.rest); }
    case MapN(k, v) =>
      hide BlindElems, DecodeElems, Flags, ClearElems, ClearList, DecodeList;
      var c := ReadMapCount(s);
      if c.Ok? {
        ClearElemsAgree(k, c.val, c.rest);
        var ks := BlindElems(k, c.val, c.rest);
        if ks.Ok? { ClearListAgrees(v, c.val, ks.rest); }
      }
  }

  /** A bitfield and its elements, as emitted code reads them. */
  ghost function BlindList(ir: Ir, n: nat, s: bytes): Decoded<seq<Value>>
  {
    match Take(s, BitfieldBytes(n))
    case Err => Err
    case Ok(_, r) => BlindElems(ir, n, r)
  }

  lemma {:induction false} ClearListAgrees(ir: Ir, n: nat, s: bytes)
    requires Supported(ir) && ClearList(ir, n, s)
    ensures BlindList(ir, n, s) == DecodeList(WireType(ir), n, s)
    decreases ir, 2, 0
  {
    hide BlindElems, DecodeElems, ClearElems;
    var bf := Take(s, BitfieldBytes(n));
    if bf.Ok? {
      assert Flags(bf.val, n) == seq(n, _ => false) by {
        forall i | 0 <= i < n ensures !Flags(bf.val, n)[i] { assert Flags(bf.val, n)[i] in Flags(bf.val, n); }
      }
      ClearElemsAgree(ir, n, bf.rest);
    }
  }

  lemma {:induction false} ClearElemsAgree(ir: Ir, n: nat, s: bytes)
    requires Supported(ir) && ClearElems(ir, n, s)
    ensures BlindElems(ir, n, s) == DecodeElems(WireType(ir), seq(n, _ => false), s)
    decreases ir, 1, n
  {
    hide Blind, Decode, Supported, Clear, WireType;
    if n > 0 {
      ClearAgrees(ir, s);
      assert seq(n, _ => false)[1..] == seq(n - 1, _ => false);
      var b := Blind(ir, s);
      if b.Ok? { ClearElemsAgree(ir, n - 1, b.rest); }
    }
  }

  lemma {:induction false} ClearFieldsAgree(fields: seq<Ir>, nulls: seq<bool>, s: bytes)
    requires |fields| == |nulls| && (forall k | 0 <= k < |fields| :: Supported(fields[k])) && ClearFields(fields, nulls, s)
    ensures BlindFields(fields, seq(|fields|, _ => Null), nulls, s) == DecodeFields(WireTypes(fields), nulls, s)
    decreases fields, 0, 0
  {
    hide Blind, Decode, Supported, Clear, WireType, Guarded, IsNested;
    if fields != [] {
      if !nulls[0] { ClearAgrees(fields[0], s); }
      var was := seq(|fields|, _ => Null);
      assert was[1..] == seq(|fields| - 1, _ => Null) && was[0] == Null;
      assert WireTypes(fields)[0] == WireType(fields[0]) && WireTypes(fields)[1..] == WireTypes(fields[1..]);
      var b := BlindField(fields[0], nulls[0], Null, s);
      if b.Ok? { ClearFieldsAgree(fields[1..], nulls[1..], b.rest); }
    }
  }

  /** What the members held before changes neither the refusal nor where the decoder stops. */
  lemma {:induction false} MembersDoNotMatter(fields: seq<Ir>, was: seq<Value>, was': seq<Value>, nulls: seq<bool>, s: bytes)
    requires |fields| == |was| == |was'| == |nulls|
    ensures var a, b := BlindFields(fields, was, nulls, s), BlindFields(fields, was', nulls, s);
            (a.Ok? <==> b.Ok?) && (a.Ok? ==> a.rest == b.rest)
    decreases |fields|
  {
    hide Blind, Guarded, IsNested;
    if fields != [] {
      var b := BlindField(fields[0], nulls[0], was[0], s);
      if b.Ok? { MembersDoNotMatter(fields[1..], was[1..], was'[1..], nulls[1..], b.rest); }
    }
  }

  /** On a row with no null that emitted code reads past, a generated class refuses exactly what the
      generic field decoder refuses, and otherwise stops at the same byte, whatever its members held. */
  lemma {:induction false} MessageFaultsIff(fields: seq<Ir>, was: seq<Value>, row: bytes)
    requires |was| == |fields| && (forall k | 0 <= k < |fields| :: Supported(fields[k]))
    requires Clear(Ir(false, StructN(fields)), row)
    ensures var m, d := DecodeInto(fields, was, row), Decode(Struct(WireTypes(fields)), row);
            (m.Ok? <==> d.Ok?) && (m.Ok? ==> m.rest == d.rest)
  {
    hide DecodeFields, BlindFields, DecodeMembers, WireTypes, Flags, Members, Supported, ClearFields;
    var bf := Take(row, BitfieldBytes(|fields|));
    if bf.Ok? {
      var nulls := Flags(bf.val, |fields|);
      assert nulls[0..] == nulls;
      MembersAreBlind(fields, 0, was, nulls, bf.rest);
      ClearFieldsAgree(fields, nulls, bf.rest);
      MembersDoNotMatter(fields, was, seq(|fields|, _ => Null), nulls, bf.rest);
    }
  }

  // ----- bytes behind the row -----

  lemma {:induction false} BlindStable(ir: Ir, s: bytes, x: bytes)
    requires Supported(ir) && Blind(ir, s).Ok?
    ensures Blind(ir, s + x) == Ok(Blind(ir, s).val, Blind(ir, s).rest + x)
    decreases ir, 0, 0
  {
    match ir.node
    case ScalarN(t) => DecodeStable(t, s, x);
    case StructN(fields) =>
      hide BlindFields, Flags;
      TakeStable(s, BitfieldBytes(|fields|), x);
      var bf := Take(s, BitfieldBytes(|fields|));
      BlindFieldsStable(fields, seq(|fields|, _ => Null), Flags(bf.val, |fields|), bf.rest, x);
    case ListN(e) =>
      hide BlindElems;
      HeaderStable(s, x);
      var h := ReadHeader(s);
      BlindElemsStable(e, h.val, h.rest, x);
    case MapN(k, v) => MapStable(ir, s, x);
  }

  lemma HeaderStable(s: bytes, x: bytes)
    requires ReadHeader(s).Ok?
    ensures ReadHeader(s + x) == Ok(ReadHeader(s).val, ReadHeader(s).rest + x)
  {
    TakeU32Stable(s, x);
    var c := TakeU32(s);
    TakeStable(c.rest, BitfieldBytes(c.val), x);
  }

  lemma {:induction false} MapStable(ir: Ir, s: bytes, x: bytes)
    requires ir.node.MapN? && Supported(ir) && Blind(ir, s).Ok?
    ensures Blind(ir, s + x) == Ok(Blind(ir, s).val, Blind(ir, s).rest + x)
    decreases ir.node, 2, 0
  {
    hide BlindElems, Take;
    var k, v := ir.node.key, ir.node.value;
    TakeU32Stable(s, x);
    var c := TakeU32(s);
    BlindElemsStable(k, c.val, c.rest, x);
    var ks := BlindElems(k, c.val, c.rest);
    TakeStable(ks.rest, BitfieldBytes(c.val), x);
    var bf := Take(ks.rest, BitfieldBytes(c.val));
    BlindElemsStable(v, c.val, bf.rest, x);
  }

  lemma {:induction false} BlindElemsStable(ir: Ir, n: nat, s: bytes, x: bytes)
    requires Supported(ir) && BlindElems(ir, n, s).Ok?
    ensures BlindElems(ir, n, s + x) == Ok(BlindElems(ir, n, s).val, BlindElems(ir, n, s).rest + x)
    decreases ir, 1, n
  {
    hide Blind, Supported;
    if n > 0 {
      BlindStable(ir, s, x);
      BlindElemsStable(ir, n - 1, Blind(ir, s).rest, x);
    }
  }

  lemma {:induction false} BlindFieldsStable(fields: seq<Ir>, was: seq<Value>, nulls: seq<bool>, s: bytes, x: bytes)
    requires |fields| == |was| == |nulls| && (forall k | 0 <= k < |fields| :: Supported(fields[k]))
    requires BlindFields(fields, was, nulls, s).Ok?
    ensures BlindFields(fields, was, nulls, s + x) == Ok(BlindFields(fields, was, nulls, s).val, BlindFields(fields, was, nulls, s).rest + x)
    decreases fields, 0, 0
  {
    hide Blind, Supported, Guarded, IsNested;
    if fields != [] {
      var b := BlindField(fields[0], nulls[0], was[0], s);
      if !(Guarded(fields[0]) && nulls[0]) { BlindStable(fields[0], s, x); }
      BlindFieldsStable(fields[1..], was[1..], nulls[1..], b.rest, x);
    }
  }

  /** A generated class does not look at what is behind its row: it decodes the same and leaves the rest
      unread, where `DecodeRow` refuses. */
  lemma {:induction false} TrailingBytesAreLeft(fields: seq<Ir>, was: seq<Value>, row: bytes, junk: bytes)
    requires |was| == |fields| && (forall k | 0 <= k < |fields| :: Supported(fields[k])) && DecodeInto(fields, was, row).Ok?
    ensures var m := DecodeInto(fields, was, row); DecodeInto(fields, was, row + junk) == Ok(m.val, m.rest + junk)
    ensures junk != [] && DecodeRow(WireTypes(fields), row).Ok? ==> DecodeRow(WireTypes(fields), row + junk).Err?
  {
    hide BlindFields, DecodeMembers, WireTypes, Flags, Members, Supported, DecodeRow;
    TakeStable(row, BitfieldBytes(|fields|), junk);
    var bf := Take(row, BitfieldBytes(|fields|));
    var nulls := Flags(bf.val, |fields|);
    assert nulls[0..] == nulls;
    MembersAreBlind(fields, 0, was, nulls, bf.rest);
    MembersAreBlind(fields, 0, was, nulls, bf.rest + junk);
    BlindFieldsStable(fields, was, nulls, bf.rest, junk);
    if junk != [] && DecodeRow(WireTypes(fields), row).Ok? { RowsArePrefixFree(WireTypes(fields), row, junk); }
  }
}
