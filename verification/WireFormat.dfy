/** The wire format byte by byte: which byte of an encoding says what, with offsets and bits counted out
    in plain numbers. */
module WireFormat {
  import opened Wire
  import opened RowTypes
  import opened CodecSpec

  // ----- counts -----

  /** The number that four bytes spell, the least significant first. */
  function Number(s: bytes): int
    requires |s| >= 4
  {
    s[0] as int + 256 * s[1] as int + 65536 * s[2] as int + 16777216 * s[3] as int
  }

  /** A count is read with its least significant byte first. */
  lemma CountIs(s: bytes)
    requires |s| >= 4
    ensures TakeU32(s).val == Number(s)
  {
  }

  predicate Spells(s: bytes, n: nat) { |s| >= 4 && Number(s) == n }

  lemma CountSpells(n: nat, rest: bytes)
    requires n < U32_LIMIT
    ensures Spells(U32(n) + rest, n)
  {
    TakeU32OfU32(n, rest);
    CountIs(U32(n) + rest);
    hide U32, TakeU32;
  }

  // ----- null bits -----

  /** Bit `i` of a byte, the lowest first. */
  predicate BitSet(b: nat, i: nat) { b / Pow2(i) % 2 == 1 }

  lemma Scaled(x: nat, y: nat, d: nat)
    requires x <= y
    ensures x * d <= y * d && (x + 1) * d == x * d + d
  {
    assert y * d == x * d + (y - x) * d;
  }

  lemma QuotientIs(b: nat, d: nat, q: nat)
    requires d > 0 && q * d <= b < q * d + d
    ensures b / d == q
  {
    var x := b / d;
    assert b == x * d + b % d;
    Scaled(x, x, d);
    Scaled(q, q, d);
    if x < q { Scaled(x + 1, q, d); }
    if x > q { Scaled(q + 1, x, d); }
  }

  lemma Halved(b: nat, p: nat)
    requires p > 0
    ensures b / (2 * p) == b / 2 / p
  {
    var h, q := b / 2, b / 2 / p;
    assert h == q * p + h % p;
    assert q * (2 * p) == 2 * (q * p);
    QuotientIs(b, 2 * p, q);
  }

  lemma {:induction false} BitIs(b: nat, i: nat)
    ensures Bit(b, i) <==> BitSet(b, i)
    decreases i
  {
    if i > 0 {
      BitIs(b / 2, i - 1);
      Halved(b, Pow2(i - 1));
    }
  }

  /** The bitfield of the slots `vs`: bit `i`, counted from the lowest of the first byte, is set exactly
      when slot `i` is null; the bits behind the last slot are clear. */
  ghost predicate Marks(bits: bytes, vs: seq<Value>)
  {
    && |vs| <= 8 * |bits| < |vs| + 8
    && forall i | 0 <= i < 8 * |bits| :: BitSet(bits[i / 8], i % 8) <==> i < |vs| && vs[i] == Null
  }

  lemma PackMarks(vs: seq<Value>)
    ensures Marks(Pack(NullFlags(vs)), vs)
  {
    hide Bit, PackFrom, BitSet;
    var flags := NullFlags(vs);
    var bits := Pack(flags);
    forall i | 0 <= i < 8 * |bits|
      ensures BitSet(bits[i / 8], i % 8) <==> i < |vs| && vs[i] == Null
    {
      assert i == 8 * (i / 8) + i % 8;
      PackFromBit(flags, 8 * (i / 8), 8, i % 8);
      BitIs(bits[i / 8], i % 8);
    }
  }

  /** A null bit is read where it was written. */
  lemma FlagIs(bf: bytes, n: nat, i: nat)
    requires |bf| == BitfieldBytes(n) && i < n
    ensures Flags(bf, n)[i] <==> BitSet(bf[i / 8], i % 8)
  {
    hide Bit, BitSet;
    BitIs(bf[i / 8], i % 8);
  }

  // ----- payloads -----

  /** Where the payload of slot `i` starts: behind those of the non-null slots before it. */
  ghost function Start(t: Type, vs: seq<Value>, i: nat): nat
    requires SlotsHaveType(t, vs) && i <= |vs|
  {
    if i == 0 then 0 else Start(t, vs, i - 1) + if vs[i - 1] == Null then 0 else assert SlotHasType(t, vs[i - 1]); |Encode(t, vs[i - 1])|
  }

  /** The payloads of the non-null slots, one behind the other, and nothing else. */
  ghost predicate Payloads(t: Type, vs: seq<Value>, body: bytes)
    requires SlotsHaveType(t, vs)
  {
    && |body| == Start(t, vs, |vs|)
    && forall i | 0 <= i < |vs| && vs[i] != Null :: assert SlotHasType(t, vs[i]); Placed(body, Start(t, vs, i), Encode(t, vs[i]))
  }

  predicate Placed(body: bytes, at: nat, payload: bytes) { at + |payload| <= |body| && body[at..at + |payload|] == payload }

  lemma PlacedBehind(a: bytes, payload: bytes, z: bytes)
    ensures Placed(a + (payload + z), |a|, payload)
  {
  }

  lemma {:induction false} ElemsNext(t: Type, vs: seq<Value>)
    requires SlotsHaveType(t, vs) && vs != []
    ensures SlotsHaveType(t, vs[1..]) && SlotHasType(t, vs[0]) && EncodeElems(t, vs) == EncodeSlot(t, vs[0]) + EncodeElems(t, vs[1..])
  {
    hide Encode, HasType;
  }

  lemma {:induction false} ElemsSplit(t: Type, vs: seq<Value>, i: nat)
    requires SlotsHaveType(t, vs) && i <= |vs|
    ensures EncodeElems(t, vs) == EncodeElems(t, vs[..i]) + EncodeElems(t, vs[i..])
    decreases |vs|
  {
    hide EncodeSlot, EncodeElems, SlotHasType;
    if i == 0 {
      assert vs[..0] == [] && vs[0..] == vs && EncodeElems(t, vs[..0]) == [] by { NoElems(t); }
      assert [] + EncodeElems(t, vs) == EncodeElems(t, vs);
    } else {
      ElemsSplit(t, vs[1..], i - 1);
      assert vs[1..][..i - 1] == vs[..i][1..] && vs[1..][i - 1..] == vs[i..] && vs[..i][0] == vs[0];
      ElemsNext(t, vs);
      ElemsNext(t, vs[..i]);
      var a, b, c := EncodeSlot(t, vs[0]), EncodeElems(t, vs[..i][1..]), EncodeElems(t, vs[i..]);
      assert a + (b + c) == (a + b) + c;
    }
  }

  lemma {:induction false} NoElems(t: Type)
    ensures EncodeElems(t, []) == []
  {
  }

  lemma {:induction false} PrefixLength(t: Type, vs: seq<Value>, i: nat)
    requires SlotsHaveType(t, vs) && i <= |vs|
    ensures |EncodeElems(t, vs[..i])| == Start(t, vs, i)
    decreases i
  {
    hide Encode, HasType;
    if i > 0 {
      PrefixLength(t, vs, i - 1);
      ElemsSplit(t, vs[..i], i - 1);
      assert vs[..i][..i - 1] == vs[..i - 1] && vs[..i][i - 1..] == [vs[i - 1]];
      OneElem(t, vs[i - 1]);
    }
  }

  lemma {:induction false} OneElem(t: Type, v: Value)
    requires SlotHasType(t, v)
    ensures EncodeElems(t, [v]) == EncodeSlot(t, v)
  {
    hide Encode, HasType;
    assert [v][1..] == [];
    assert EncodeSlot(t, v) + [] == EncodeSlot(t, v);
  }

  lemma {:induction false} ElemPayloads(t: Type, vs: seq<Value>)
    requires SlotsHaveType(t, vs)
    ensures Payloads(t, vs, EncodeElems(t, vs))
  {
    hide Encode, HasType, EncodeElems, Placed;
    PrefixLength(t, vs, |vs|);
    assert vs[..|vs|] == vs;
    forall i | 0 <= i < |vs| && vs[i] != Null
      ensures Placed(EncodeElems(t, vs), Start(t, vs, i), Encode(t, vs[i]))
    {
      PrefixLength(t, vs, i);
      ElemsSplit(t, vs, i);
      ElemsSplit(t, vs[i..], 1);
      assert vs[i..][..1] == [vs[i]];
      OneElem(t, vs[i]);
      PlacedBehind(EncodeElems(t, vs[..i]), Encode(t, vs[i]), EncodeElems(t, vs[i..][1..]));
    }
  }

  // ----- the layout of each type -----

  /** A boolean is one byte, any other fixed-width value its own bytes. */
  lemma FixedLayout(b: bool, raw: bytes)
    ensures Encode(Bool, BoolV(b)) == (if b then [1] else [0]) && Encode(Fixed(|raw|), FixedV(raw)) == raw
  {
  }

  /** A list: the count, one null bit per element, the payloads. */
  lemma {:induction false} ListLayout(large: bool, e: Type, vs: seq<Value>)
    requires HasType(List(large, e), ListV(vs))
    ensures var s, n := Encode(List(large, e), ListV(vs)), |vs|;
            var bits := 4 + (n + 7) / 8;
            Spells(s, n) && bits <= |s| && Marks(s[4..bits], vs) && Payloads(e, vs, s[bits..])
  {
    hide EncodeElems, Payloads, Marks, Spells;
    var bf, body := Pack(NullFlags(vs)), EncodeElems(e, vs);
    CountSpells(|vs|, bf + body);
    PackMarks(vs);
    ElemPayloads(e, vs);
    Cut(U32(|vs|), bf, body);
  }

  /** A fixed-size list: the same without the count. */
  lemma {:induction false} FixedSizeListLayout(e: Type, vs: seq<Value>)
    requires SlotsHaveType(e, vs)
    ensures var s := Encode(FixedSizeList(|vs|, e), ListV(vs));
            var bits := (|vs| + 7) / 8;
            bits <= |s| && Marks(s[..bits], vs) && Payloads(e, vs, s[bits..])
  {
    hide EncodeElems, Payloads, Marks;
    PackMarks(vs);
    ElemPayloads(e, vs);
    Cut([], Pack(NullFlags(vs)), EncodeElems(e, vs));
  }

  /** A map: the count, the payloads of the keys, one null bit per value, the payloads of the values. */
  lemma {:induction false} MapLayout(k: Type, i: Type, ks: seq<Value>, vs: seq<Value>)
    requires HasType(Map(k, i), MapV(ks, vs))
    ensures var s, n := Encode(Map(k, i), MapV(ks, vs)), |ks|;
            var keys := 4 + Start(k, ks, n);
            var bits := keys + (n + 7) / 8;
            && Spells(s, n) && bits <= |s| && Payloads(k, ks, s[4..keys]) && Marks(s[keys..bits], vs) && Payloads(i, vs, s[bits..])
  {
    hide EncodeElems, Encode, Marks, Spells, Pack, U32, SlotsHaveType, Start, NullFlags, HasType, Payloads;
    MapBytes(k, i, ks, vs);
    var kb, bf, body := EncodeElems(k, ks), Pack(NullFlags(vs)), EncodeElems(i, vs);
    CountSpells(|ks|, kb + (bf + body));
    ElemPayloads(k, ks);
    PackMarks(vs);
    ElemPayloads(i, vs);
    KeyBytes(k, ks);
    Cut(U32(|ks|), kb, bf + body);
    assert U32(|ks|) + (kb + (bf + body)) == (U32(|ks|) + kb) + (bf + body);
    Cut(U32(|ks|) + kb, bf, body);
  }

  lemma {:induction false} MapBytes(k: Type, i: Type, ks: seq<Value>, vs: seq<Value>)
    requires HasType(Map(k, i), MapV(ks, vs))
    ensures |ks| == |vs| < U32_LIMIT && SlotsHaveType(k, ks) && SlotsHaveType(i, vs)
    ensures Encode(Map(k, i), MapV(ks, vs)) == U32(|ks|) + (EncodeElems(k, ks) + (Pack(NullFlags(vs)) + EncodeElems(i, vs)))
  {
    hide EncodeElems, SlotsHaveType, Pack, U32, NullFlags;
  }

  lemma {:induction false} KeyBytes(t: Type, vs: seq<Value>)
    requires SlotsHaveType(t, vs)
    ensures |EncodeElems(t, vs)| == Start(t, vs, |vs|)
  {
    hide EncodeElems, Start, SlotsHaveType;
    PrefixLength(t, vs, |vs|);
    assert vs[..|vs|] == vs;
  }

  lemma Cut(a: bytes, b: bytes, c: bytes)
    ensures var s := a + (b + c); s[|a|..|a| + |b|] == b && s[|a| + |b|..] == c
    ensures [] + (b + c) == b + c
  {
  }

  /** utf8 and binary: the length, the bytes. */
  lemma {:induction false} VarLayout(narrow: bool, data: bytes)
    requires |data| < U32_LIMIT
    ensures var s := Encode(VarLen(narrow), VarV(data)); Spells(s, |data|) && s[4..] == data
  {
    CountSpells(|data|, data);
    hide Spells;
  }

  /** A union: the type code, the payload of its child. */
  lemma {:induction false} UnionLayout(dense: bool, codes: seq<nat>, arms: seq<Type>, v: Value)
    requires HasType(Union(dense, codes, arms), v)
    ensures var s := Encode(Union(dense, codes, arms), v);
            s != [] && s[0] == v.code && s[1..] == Encode(arms[ChildId(codes, v.code)], v.arm)
  {
    hide ChildId;
  }

  // ----- structs and rows -----

  ghost function FieldStart(ts: seq<Type>, vs: seq<Value>, i: nat): nat
    requires |ts| == |vs| && SlotsHaveTypes(ts, vs) && i <= |vs|
  {
    if i == 0 then 0 else FieldStart(ts, vs, i - 1) + if vs[i - 1] == Null then 0 else assert SlotHasType(ts[i - 1], vs[i - 1]); |Encode(ts[i - 1], vs[i - 1])|
  }

  ghost predicate FieldPayloads(ts: seq<Type>, vs: seq<Value>, body: bytes)
    requires |ts| == |vs| && SlotsHaveTypes(ts, vs)
  {
    && |body| == FieldStart(ts, vs, |vs|)
    && forall i | 0 <= i < |vs| && vs[i] != Null :: assert SlotHasType(ts[i], vs[i]); Placed(body, FieldStart(ts, vs, i), Encode(ts[i], vs[i]))
  }

  lemma {:induction false} FieldsSplit(ts: seq<Type>, vs: seq<Value>, i: nat)
    requires |ts| == |vs| && SlotsHaveTypes(ts, vs) && i <= |vs|
    ensures EncodeFields(ts, vs) == EncodeFields(ts[..i], vs[..i]) + EncodeFields(ts[i..], vs[i..])
    decreases |vs|
  {
    hide Encode, HasType;
    if i == 0 {
      assert vs[..0] == [] && vs[0..] == vs && ts[..0] == [] && ts[0..] == ts;
      assert [] + EncodeFields(ts, vs) == EncodeFields(ts, vs);
    } else {
      FieldsSplit(ts[1..], vs[1..], i - 1);
      assert vs[1..][..i - 1] == vs[..i][1..] && vs[1..][i - 1..] == vs[i..] && vs[..i][0] == vs[0];
      assert ts[1..][..i - 1] == ts[..i][1..] && ts[1..][i - 1..] == ts[i..] && ts[..i][0] == ts[0];
      var a, b, c := EncodeSlot(ts[0], vs[0]), EncodeFields(ts[..i][1..], vs[..i][1..]), EncodeFields(ts[i..], vs[i..]);
      assert a + (b + c) == (a + b) + c;
    }
  }

  lemma {:induction false} OneField(t: Type, v: Value)
    requires SlotHasType(t, v)
    ensures EncodeFields([t], [v]) == EncodeSlot(t, v)
  {
    hide Encode, HasType;
    assert [v][1..] == [] && [t][1..] == [];
    assert EncodeSlot(t, v) + [] == EncodeSlot(t, v);
  }

  lemma {:induction false} FieldPrefix(ts: seq<Type>, vs: seq<Value>, i: nat)
    requires |ts| == |vs| && SlotsHaveTypes(ts, vs) && i <= |vs|
    ensures |EncodeFields(ts[..i], vs[..i])| == FieldStart(ts, vs, i)
    decreases i
  {
    hide Encode, HasType;
    if i > 0 {
      FieldPrefix(ts, vs, i - 1);
      FieldsSplit(ts[..i], vs[..i], i - 1);
      assert vs[..i][..i - 1] == vs[..i - 1] && vs[..i][i - 1..] == [vs[i - 1]];
      assert ts[..i][..i - 1] == ts[..i - 1] && ts[..i][i - 1..] == [ts[i - 1]];
      OneField(ts[i - 1], vs[i - 1]);
    }
  }

  lemma {:induction false} FieldsPlaced(ts: seq<Type>, vs: seq<Value>)
    requires |ts| == |vs| && SlotsHaveTypes(ts, vs)
    ensures FieldPayloads(ts, vs, EncodeFields(ts, vs))
  {
    hide Encode, HasType, EncodeFields, Placed;
    FieldPrefix(ts, vs, |vs|);
    assert vs[..|vs|] == vs && ts[..|vs|] == ts;
    forall i | 0 <= i < |vs| && vs[i] != Null
      ensures Placed(EncodeFields(ts, vs), FieldStart(ts, vs, i), Encode(ts[i], vs[i]))
    {
      FieldPrefix(ts, vs, i);
      FieldsSplit(ts, vs, i);
      FieldsSplit(ts[i..], vs[i..], 1);
      assert vs[i..][..1] == [vs[i]] && ts[i..][..1] == [ts[i]];
      OneField(ts[i], vs[i]);
      PlacedBehind(EncodeFields(ts[..i], vs[..i]), Encode(ts[i], vs[i]), EncodeFields(ts[i..][1..], vs[i..][1..]));
    }
  }

  /** A struct or a row: one null bit per field, the payloads of the non-null fields in order. */
  lemma {:induction false} RowLayout(schema: seq<Type>, row: seq<Value>)
    requires HasType(Struct(schema), StructV(row))
    ensures var s := EncodeRow(schema, row);
            var bits := (|row| + 7) / 8;
            bits <= |s| && Marks(s[..bits], row) && FieldPayloads(schema, row, s[bits..])
  {
    hide EncodeFields, FieldPayloads, Marks;
    PackMarks(row);
    FieldsPlaced(schema, row);
    Cut([], Pack(NullFlags(row)), EncodeFields(schema, row));
  }

  // ----- one row, spelled out -----

  lemma {:induction false} NoFlags(flags: seq<bool>, start: nat, n: nat)
    requires start >= |flags|
    ensures PackFrom(flags, start, n) == 0
    decreases n
  {
    if n > 0 { NoFlags(flags, start + 1, n - 1); }
  }

  /** Of up to four slots only the second is null: the byte is 2. */
  lemma SecondNull(vs: seq<Value>)
    requires 2 <= |vs| <= 4 && vs[1] == Null && forall i | 0 <= i < |vs| && i != 1 :: vs[i] != Null
    ensures Pack(NullFlags(vs)) == [2]
  {
    var flags := NullFlags(vs);
    NoFlags(flags, 4, 4);
    assert PackFrom(flags, 3, 5) == 0;
    assert PackFrom(flags, 2, 6) == 0;
    assert PackFrom(flags, 1, 7) == 1;
    assert PackFrom(flags, 0, 8) == 2;
    hide PackFrom;
    assert PackByte(flags, 0) == 2;
  }

  lemma {:induction false} TwoElems(t: Type, a: Value, b: Value)
    requires HasType(t, a) && HasType(t, b) && a != Null && b != Null
    ensures SlotsHaveType(t, [a, Null, b]) && EncodeElems(t, [a, Null, b]) == Encode(t, a) + Encode(t, b)
  {
    hide Encode, HasType;
    var vs := [a, Null, b];
    assert SlotsHaveType(t, vs);
    assert vs[1..] == [Null, b] && vs[1..][1..] == [b];
    ElemsNext(t, vs);
    ElemsNext(t, vs[1..]);
    OneElem(t, b);
    assert [] + Encode(t, b) == Encode(t, b);
  }

  lemma Small(n: nat)
    requires n < 256
    ensures U32(n) == [n, 0, 0, 0]
  {
  }

  lemma {:induction false} ListSpelled(t: Type, v: Value)
    requires t == List(false, Fixed(2)) && v == ListV([FixedV([1, 0]), Null, FixedV([2, 0])])
    ensures HasType(t, v) && Encode(t, v) == [3, 0, 0, 0, 2, 1, 0, 2, 0]
  {
    TwoElems(Fixed(2), FixedV([1, 0]), FixedV([2, 0]));
    SecondNull(v.elems);
    Small(3);
    hide Pack, EncodeElems, U32;
    assert [1, 0] + [2, 0] == [1, 0, 2, 0];
  }

  lemma {:induction false} TextSpelled(t: Type, v: Value)
    requires t == VarLen(true) && v == VarV([97, 98, 99])
    ensures HasType(t, v) && Encode(t, v) == [3, 0, 0, 0, 97, 98, 99]
  {
    Small(3);
    hide U32;
  }

  lemma {:induction false} FourFields(ts: seq<Type>, vs: seq<Value>)
    requires |ts| == |vs| == 4 && vs[1] == Null && forall i | 0 <= i < 4 && i != 1 :: HasType(ts[i], vs[i]) && vs[i] != Null
    ensures HasType(Struct(ts), StructV(vs))
    ensures EncodeRow(ts, vs) == [2] + Encode(ts[0], vs[0]) + Encode(ts[2], vs[2]) + Encode(ts[3], vs[3])
  {
    assert SlotsHaveTypes(ts, vs) by {
      forall i | 0 <= i < 4
        ensures SlotHasType(ts[i], vs[i])
      {
      }
    }
    SecondNull(vs);
    RowBytes(ts, vs);
    hide Encode, HasType, Pack, EncodeRow;
    FieldsSplit(ts, vs, 1);
    FieldsSplit(ts[1..], vs[1..], 1);
    FieldsSplit(ts[2..], vs[2..], 1);
    assert ts[..1] == [ts[0]] && vs[..1] == [vs[0]] && ts[1..][..1] == [ts[1]] && vs[1..][..1] == [Null];
    assert ts[1..][1..] == ts[2..] && vs[1..][1..] == vs[2..] && ts[2..][..1] == [ts[2]] && vs[2..][..1] == [vs[2]];
    assert ts[2..][1..] == [ts[3]] && vs[2..][1..] == [vs[3]];
    OneField(ts[0], vs[0]);
    OneField(ts[1], Null);
    OneField(ts[2], vs[2]);
    OneField(ts[3], vs[3]);
    var a, b, c := Encode(ts[0], vs[0]), Encode(ts[2], vs[2]), Encode(ts[3], vs[3]);
    assert EncodeFields(ts, vs) == a + ([] + (b + c));
    assert [2] + (a + ([] + (b + c))) == [2] + a + b + c;
  }

  lemma {:induction false} RowBytes(ts: seq<Type>, vs: seq<Value>)
    requires |ts| == |vs| && SlotsHaveTypes(ts, vs)
    ensures HasType(Struct(ts), StructV(vs)) && EncodeRow(ts, vs) == Pack(NullFlags(vs)) + EncodeFields(ts, vs)
  {
    hide SlotsHaveTypes, Pack, EncodeFields, NullFlags;
  }

  /** A row of a utf8 "abc", a null int32, a true boolean and the int16 list [1, null, 2]. */
  lemma RowSpelled(schema: seq<Type>, row: seq<Value>)
    requires schema == [VarLen(true), Fixed(4), Bool, List(false, Fixed(2))]
    requires row == [VarV([97, 98, 99]), Null, BoolV(true), ListV([FixedV([1, 0]), Null, FixedV([2, 0])])]
    ensures HasType(Struct(schema), StructV(row))
    ensures EncodeRow(schema, row) == [2] + [3, 0, 0, 0, 97, 98, 99] + [1] + [3, 0, 0, 0, 2, 1, 0, 2, 0]
  {
    hide Encode, EncodeRow, HasType;
    TextSpelled(schema[0], row[0]);
    TrueSpelled(schema[2], row[2]);
    ListSpelled(schema[3], row[3]);
    FourFields(schema, row);
  }

  lemma {:induction false} TrueSpelled(t: Type, v: Value)
    requires t == Bool && v == BoolV(true)
    ensures HasType(t, v) && Encode(t, v) == [1]
  {
  }
}
