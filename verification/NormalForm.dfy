/** The normal form of a row: re-printing what was parsed keeps every byte, except that bitfield
    padding is cleared and boolean bytes become 0 or 1.  The same layout bounds the work a row can
    demand of a decoder. */
module NormalForm {
  import opened Wire
  import opened RowTypes
  import opened CodecSpec
  import opened CodecLaws
  import opened CodecRows

  /** What a byte of an encoded value is for. */
  datatype Role =
    | Plain               // payload, a count or a type code
    | Truth               // a boolean
    | Bits(live: nat)     // a bitfield byte with this many bits in use

  function Plains(n: nat): seq<Role> { seq(n, _ => Plain) }

  function BitRoles(n: nat): seq<Role>
  {
    seq(BitfieldBytes(n), k requires 0 <= k < BitfieldBytes(n) =>
      Bits(if n - 8 * k < 8 then n - 8 * k else 8))
  }

  /** The role of each byte of `Encode(t, v)`. */
  ghost function Roles(t: Type, v: Value): seq<Role>
    requires HasType(t, v)
    decreases t, 0
  {
    match t
    case Bool => [Truth]
    case Fixed(w) => Plains(w)
    case VarLen(_) => Plains(4) + Plains(|v.data|)
    case Struct(ts) => BitRoles(|ts|) + FieldRoles(ts, v.fields)
    case List(_, e) => Plains(4) + ListRoles(e, v.elems)
    case FixedSizeList(_, e) => ListRoles(e, v.elems)
    case Map(k, i) => Plains(4) + (ElemRoles(k, v.keys) + ListRoles(i, v.items))
    case Union(_, codes, arms) => [Plain] + Roles(arms[ChildId(codes, v.code)], v.arm)
  }

  ghost function ListRoles(t: Type, vs: seq<Value>): seq<Role>
    requires SlotsHaveType(t, vs)
    decreases t, 3
  {
    BitRoles(|vs|) + ElemRoles(t, vs)
  }

  ghost function SlotRoles(t: Type, v: Value): seq<Role>
    requires SlotHasType(t, v)
    decreases t, 1
  {
    if v == Null then [] else Roles(t, v)
  }

  ghost function ElemRoles(t: Type, vs: seq<Value>): seq<Role>
    requires SlotsHaveType(t, vs)
    decreases t, 2, |vs|
  {
    if vs == [] then [] else SlotRoles(t, vs[0]) + ElemRoles(t, vs[1..])
  }

  ghost function FieldRoles(ts: seq<Type>, vs: seq<Value>): seq<Role>
    requires |ts| == |vs| && SlotsHaveTypes(ts, vs)
    decreases ts, 0
  {
    if ts == [] then [] else SlotRoles(ts[0], vs[0]) + FieldRoles(ts[1..], vs[1..])
  }

  /** `y` is the normal form of the accepted byte `x`. */
  ghost predicate Normal(role: Role, x: byte, y: byte)
  {
    match role
    case Plain => y == x
    case Truth => y == if x == 0 then 0 else 1
    case Bits(n) => y < Pow2(n) && forall i | 0 <= i < n :: Bit(y, i) == Bit(x, i)
  }

  /** `p` is the normal form of the bytes `s` loses to leave `r`. */
  ghost predicate NormalOf(roles: seq<Role>, s: bytes, r: bytes, p: bytes)
  {
    && |p| == |roles| == |s| - |r|
    && (forall i | 0 <= i < |p| :: Normal(roles[i], s[i], p[i]))
    && Suffix(r, s)
  }

  lemma NormalChain(a: seq<Role>, b: seq<Role>, s: bytes, m: bytes, r: bytes, p: bytes, q: bytes)
    requires NormalOf(a, s, m, p) && NormalOf(b, m, r, q)
    ensures NormalOf(a + b, s, r, p + q)
  {
    SuffixTrans(r, m, s);
    var k := |p|;
    forall i | 0 <= i < |p + q|
      ensures Normal((a + b)[i], s[i], (p + q)[i])
    {
      if i >= k { assert s[k..][i - k] == m[i - k]; }
    }
  }

  lemma PlainNormal(s: bytes, n: nat)
    requires n <= |s|
    ensures NormalOf(Plains(n), s, s[n..], s[..n])
  {
  }

  lemma CountNormal(s: bytes)
    requires |s| >= 4
    ensures NormalOf(Plains(4), s, s[4..], U32(TakeU32(s).val))
  {
    U32OfTakeU32(s);
    PlainNormal(s, 4);
  }

  /** Packing clears the bits past the last flag. */
  lemma {:induction false} PackFromIsShort(flags: seq<bool>, start: nat, n: nat, live: nat)
    requires start + live >= |flags| && live <= n
    ensures PackFrom(flags, start, n) < Pow2(live)
    decreases n
  {
    if n > 0 {
      if live > 0 {
        PackFromIsShort(flags, start + 1, n - 1, live - 1);
      } else {
        PackFromIsShort(flags, start + 1, n - 1, 0);
      }
    }
  }

  lemma {:induction false} RepackedBit(bf: bytes, n: nat, j: nat, i: nat)
    requires |bf| == BitfieldBytes(n) && i < 8 && 8 * j + i < n
    ensures Bit(PackByte(Flags(bf, n), j), i) == Bit(bf[j], i)
  {
    hide Bit;
    var flags := Flags(bf, n);
    PackFromBit(flags, 8 * j, 8, i);
    assert (8 * j + i) / 8 == j && (8 * j + i) % 8 == i;
    assert flags[8 * j + i] == NullBit(bf, 8 * j + i);
  }

  lemma RepackedByte(bf: bytes, n: nat, j: nat)
    requires j < |bf| == BitfieldBytes(n)
    ensures Normal(BitRoles(n)[j], bf[j], PackByte(Flags(bf, n), j))
  {
    hide Bit;
    var flags, live := Flags(bf, n), BitRoles(n)[j].live;
    if live < 8 { PackFromIsShort(flags, 8 * j, 8, live); }
    forall i | 0 <= i < live
      ensures Bit(PackByte(flags, j), i) == Bit(bf[j], i)
    {
      RepackedBit(bf, n, j, i);
    }
  }

  lemma BitsNormal(s: bytes, n: nat)
    requires BitfieldBytes(n) <= |s|
    ensures var k := BitfieldBytes(n);
            NormalOf(BitRoles(n), s, s[k..], Pack(Flags(s[..k], n)))
  {
    hide Normal, PackByte, Flags;
    var k := BitfieldBytes(n);
    forall j | 0 <= j < k
      ensures Normal(BitRoles(n)[j], s[j], Pack(Flags(s[..k], n))[j])
    {
      RepackedByte(s[..k], n, j);
    }
  }

  /** Re-printing an accepted value keeps its length and every byte, up to padding bits and truth bytes. */
  lemma {:induction false} Reprint(t: Type, s: bytes)
    requires Decode(t, s).Ok? && HasType(t, Decode(t, s).val)
    ensures var Ok(v, r) := Decode(t, s); NormalOf(Roles(t, v), s, r, Encode(t, v))
    decreases t, 1
  {
    hide DecodeElems, DecodeFields, DecodeList, EncodeElems, EncodeFields, ElemRoles, FieldRoles, ListRoles;
    hide NormalOf, Suffix, Pack, Flags, NullFlags, Plains, BitRoles;
    var Ok(v, r) := Decode(t, s);
    match t
    case Bool => BoolNormal(s);
    case Fixed(w) => PlainNormal(s, w);
    case VarLen(_) =>
      CountNormal(s);
      PlainNormal(s[4..], |v.data|);
      NormalChain(Plains(4), Plains(|v.data|), s, s[4..], r, U32(|v.data|), v.data);
    case Struct(ts) =>
      var k := BitfieldBytes(|ts|);
      var flags := Flags(s[..k], |ts|);
      BitsNormal(s, |ts|);
      FieldsHaveTypes(ts, flags, s[k..]);
      FieldsReprint(ts, flags, s[k..]);
      NormalChain(BitRoles(|ts|), FieldRoles(ts, v.fields), s, s[k..], r, Pack(flags), EncodeFields(ts, v.fields));
    case List(_, e) =>
      CountNormal(s);
      ListHasType(e, TakeU32(s).val, s[4..]);
      ListReprint(e, TakeU32(s).val, s[4..]);
      NormalChain(Plains(4), ListRoles(e, v.elems), s, s[4..], r, U32(|v.elems|), EncodeList(e, v.elems));
    case FixedSizeList(n, e) =>
      ListHasType(e, n, s);
      ListReprint(e, n, s);
    case Map(k, i) => MapReprint(k, i, s);
    case Union(_, codes, arms) =>
      var arm := arms[ChildId(codes, s[0])];
      PlainNormal(s, 1);
      Reprint(arm, s[1..]);
      assert Plains(1) == [Plain] by { OnePlain(); }
      assert s[..1] == [s[0]];
      NormalChain([Plain], Roles(arm, v.arm), s, s[1..], r, [s[0]], Encode(arm, v.arm));
  }

  lemma OnePlain()
    ensures Plains(1) == [Plain]
  {
  }

  lemma BoolNormal(s: bytes)
    requires |s| > 0
    ensures NormalOf([Truth], s, s[1..], [if s[0] != 0 then 1 else 0])
  {
  }

  /** The bytes of a list body: its bitfield, then its payloads. */
  function EncodeList(t: Type, vs: seq<Value>): bytes
    requires SlotsHaveType(t, vs)
  {
    Pack(NullFlags(vs)) + EncodeElems(t, vs)
  }

  lemma {:induction false} MapReprint(k: Type, i: Type, s: bytes)
    requires Decode(Map(k, i), s).Ok? && HasType(Map(k, i), Decode(Map(k, i), s).val)
    ensures var Ok(v, r) := Decode(Map(k, i), s);
            NormalOf(Roles(Map(k, i), v), s, r, Encode(Map(k, i), v))
    decreases Map(k, i), 0
  {
    hide DecodeElems, DecodeFields, DecodeList, EncodeElems, EncodeFields, ElemRoles, FieldRoles, ListRoles;
    hide NormalOf, Suffix, Pack, Flags, NullFlags, Plains, BitRoles;
    var n := TakeU32(s).val;
    var nulls := seq(n, _ => false);
    var Ok(v, r) := Decode(Map(k, i), s);
    var ks := DecodeElems(k, nulls, s[4..]);
    CountNormal(s);
    ElemsHaveType(k, nulls, s[4..]);
    ElemsReprint(k, nulls, s[4..]);
    ListHasType(i, n, ks.rest);
    ListReprint(i, n, ks.rest);
    NormalChain(ElemRoles(k, v.keys), ListRoles(i, v.items), s[4..], ks.rest, r,
                EncodeElems(k, v.keys), EncodeList(i, v.items));
    NormalChain(Plains(4), ElemRoles(k, v.keys) + ListRoles(i, v.items), s, s[4..], r,
                U32(n), EncodeElems(k, v.keys) + EncodeList(i, v.items));
  }

  lemma {:induction false} ListReprint(t: Type, n: nat, s: bytes)
    requires DecodeList(t, n, s).Ok? && SlotsHaveType(t, DecodeList(t, n, s).val)
    ensures var Ok(vs, r) := DecodeList(t, n, s); NormalOf(ListRoles(t, vs), s, r, EncodeList(t, vs))
    decreases t, 4
  {
    hide DecodeElems, EncodeElems, ElemRoles, NormalOf, Suffix, Pack, Flags, NullFlags, BitRoles;
    var k := BitfieldBytes(n);
    var flags := Flags(s[..k], n);
    var Ok(vs, r) := DecodeList(t, n, s);
    BitsNormal(s, n);
    ElemsHaveType(t, flags, s[k..]);
    ElemsReprint(t, flags, s[k..]);
    NormalChain(BitRoles(n), ElemRoles(t, vs), s, s[k..], r, Pack(flags), EncodeElems(t, vs));
  }

  lemma {:induction false} SlotReprint(t: Type, isNull: bool, s: bytes)
    requires DecodeSlot(t, isNull, s).Ok? && SlotHasType(t, DecodeSlot(t, isNull, s).val)
    ensures var Ok(v, r) := DecodeSlot(t, isNull, s); NormalOf(SlotRoles(t, v), s, r, EncodeSlot(t, v))
    decreases t, 2
  {
    if !isNull {
      DecodedHasType(t, s);
      Reprint(t, s);
    }
  }

  lemma {:induction false} ElemsReprint(t: Type, nulls: seq<bool>, s: bytes)
    requires DecodeElems(t, nulls, s).Ok? && SlotsHaveType(t, DecodeElems(t, nulls, s).val)
    ensures var Ok(vs, r) := DecodeElems(t, nulls, s); NormalOf(ElemRoles(t, vs), s, r, EncodeElems(t, vs))
    decreases t, 3, |nulls|
  {
    hide Decode, DecodeSlot, Encode, EncodeSlot, HasType, Roles, SlotRoles;
    if nulls != [] {
      var Ok(vs, r) := DecodeElems(t, nulls, s);
      var d := DecodeSlot(t, nulls[0], s);
      assert vs[0] == d.val && vs[1..] == DecodeElems(t, nulls[1..], d.rest).val;
      SlotReprint(t, nulls[0], s);
      ElemsReprint(t, nulls[1..], d.rest);
      NormalChain(SlotRoles(t, vs[0]), ElemRoles(t, vs[1..]), s, d.rest, r,
                  EncodeSlot(t, vs[0]), EncodeElems(t, vs[1..]));
    }
  }

  lemma {:induction false} FieldsReprint(ts: seq<Type>, nulls: seq<bool>, s: bytes)
    requires |ts| == |nulls| && DecodeFields(ts, nulls, s).Ok?
    requires var vs := DecodeFields(ts, nulls, s).val; |vs| == |ts| && SlotsHaveTypes(ts, vs)
    ensures var Ok(vs, r) := DecodeFields(ts, nulls, s); NormalOf(FieldRoles(ts, vs), s, r, EncodeFields(ts, vs))
    decreases ts, 0
  {
    hide Decode, DecodeSlot, Encode, EncodeSlot, HasType, Roles, SlotRoles;
    if ts != [] {
      var Ok(vs, r) := DecodeFields(ts, nulls, s);
      var d := DecodeSlot(ts[0], nulls[0], s);
      assert vs[0] == d.val && vs[1..] == DecodeFields(ts[1..], nulls[1..], d.rest).val;
      SlotReprint(ts[0], nulls[0], s);
      FieldsReprint(ts[1..], nulls[1..], d.rest);
      NormalChain(SlotRoles(ts[0], vs[0]), FieldRoles(ts[1..], vs[1..]), s, d.rest, r,
                  EncodeSlot(ts[0], vs[0]), EncodeFields(ts[1..], vs[1..]));
    }
  }

  /** For every accepted row, encoding what it decodes to has the same length and is its normal form. */
  lemma RowNormalForm(schema: seq<Type>, s: bytes)
    requires DecodeRow(schema, s).Ok?
    ensures var row := DecodeRow(schema, s).val;
            && HasType(Struct(schema), StructV(row))
            && NormalOf(Roles(Struct(schema), StructV(row)), s, [], EncodeRow(schema, row))
  {
    DecodedHasType(Struct(schema), s);
    Reprint(Struct(schema), s);
  }

  // ----- work -----

  /** The slots of every struct, list and map in a value, counted at every nesting level. */
  ghost function Work(v: Value): nat
    decreases v, 0
  {
    match v
    case StructV(vs) => |vs| + WorkAll(vs)
    case ListV(vs) => |vs| + WorkAll(vs)
    case MapV(ks, vs) => |vs| + WorkAll(ks) + WorkAll(vs)
    case UnionV(_, a) => Work(a)
    case _ => 0
  }

  ghost function WorkAll(vs: seq<Value>): nat
    decreases vs, 1
  {
    if vs == [] then 0 else Work(vs[0]) + WorkAll(vs[1..])
  }

  lemma {:induction false} WorkIsPaidFor(t: Type, v: Value)
    requires HasType(t, v)
    ensures Work(v) <= 8 * |Encode(t, v)|
    decreases t, 0
  {
    match t
    case Bool =>
    case Fixed(_) =>
    case VarLen(_) =>
    case Struct(ts) => FieldWorkIsPaidFor(ts, v.fields);
    case List(_, e) => ElemWorkIsPaidFor(e, v.elems);
    case FixedSizeList(_, e) => ElemWorkIsPaidFor(e, v.elems);
    case Map(k, i) =>
      ElemWorkIsPaidFor(k, v.keys);
      ElemWorkIsPaidFor(i, v.items);
    case Union(_, codes, arms) => WorkIsPaidFor(arms[ChildId(codes, v.code)], v.arm);
  }

  lemma {:induction false} ElemWorkIsPaidFor(t: Type, vs: seq<Value>)
    requires SlotsHaveType(t, vs)
    ensures WorkAll(vs) <= 8 * |EncodeElems(t, vs)|
    decreases t, 1, |vs|
  {
    hide Encode, HasType;
    if vs != [] {
      if vs[0] != Null { WorkIsPaidFor(t, vs[0]); }
      ElemWorkIsPaidFor(t, vs[1..]);
    }
  }

  lemma {:induction false} FieldWorkIsPaidFor(ts: seq<Type>, vs: seq<Value>)
    requires |ts| == |vs| && SlotsHaveTypes(ts, vs)
    ensures WorkAll(vs) <= 8 * |EncodeFields(ts, vs)|
    decreases ts, 0
  {
    hide Encode, HasType;
    if ts != [] {
      if vs[0] != Null { WorkIsPaidFor(ts[0], vs[0]); }
      FieldWorkIsPaidFor(ts[1..], vs[1..]);
    }
  }

  /** An accepted row of `n` bytes asks for at most `8 n` slots over all nesting levels. */
  lemma RowWorkBound(schema: seq<Type>, s: bytes)
    requires DecodeRow(schema, s).Ok?
    ensures Work(StructV(DecodeRow(schema, s).val)) <= 8 * |s|
  {
    RowNormalForm(schema, s);
    WorkIsPaidFor(Struct(schema), StructV(DecodeRow(schema, s).val));
  }
}
