/** The row codec as two functions that undo each other: `Encode` prints a value, `Decode` parses a
    prefix of a byte string.  They follow the type tree one element at a time; the run paths of the
    real decoders are proved equal to this form elsewhere. */
module CodecSpec {
  import opened Wire
  import opened RowTypes

  // ----- printing -----

  function Encode(t: Type, v: Value): bytes
    requires HasType(t, v)
    decreases t, 0
  {
    match t
    case Bool => [if v.b then 1 else 0]
    case Fixed(_) => v.raw
    case VarLen(_) => U32(|v.data|) + v.data
    case Struct(ts) => Pack(NullFlags(v.fields)) + EncodeFields(ts, v.fields)
    case List(_, e) => U32(|v.elems|) + (Pack(NullFlags(v.elems)) + EncodeElems(e, v.elems))
    case FixedSizeList(_, e) => Pack(NullFlags(v.elems)) + EncodeElems(e, v.elems)
    case Map(k, i) =>
      U32(|v.keys|) + (EncodeElems(k, v.keys) + (Pack(NullFlags(v.items)) + EncodeElems(i, v.items)))
    case Union(_, codes, arms) => [v.code] + Encode(arms[ChildId(codes, v.code)], v.arm)
  }

  /** A null slot has no payload. */
  function EncodeSlot(t: Type, v: Value): bytes
    requires SlotHasType(t, v)
    decreases t, 1
  {
    if v == Null then [] else Encode(t, v)
  }

  /** The payloads of the non-null slots of a list, in order. */
  function EncodeElems(t: Type, vs: seq<Value>): bytes
    requires SlotsHaveType(t, vs)
    decreases t, 2, |vs|
  {
    if vs == [] then [] else EncodeSlot(t, vs[0]) + EncodeElems(t, vs[1..])
  }

  /** The payloads of the non-null fields of a struct or row, in order. */
  function EncodeFields(ts: seq<Type>, vs: seq<Value>): bytes
    requires |ts| == |vs| && SlotsHaveTypes(ts, vs)
    decreases ts, 0
  {
    if ts == [] then [] else EncodeSlot(ts[0], vs[0]) + EncodeFields(ts[1..], vs[1..])
  }

  // ----- parsing -----

  function Decode(t: Type, s: bytes): Decoded<Value>
    decreases t, 0
  {
    match t
    case Bool =>
      (match Take(s, 1)
       case Err => Err
       case Ok(b, r) => Ok(BoolV(b[0] != 0), r))
    case Fixed(w) =>
      (match Take(s, w)
       case Err => Err
       case Ok(b, r) => Ok(FixedV(b), r))
    case VarLen(_) =>
      (match TakeU32(s)
       case Err => Err
       case Ok(n, r) =>
         match Take(r, n)
         case Err => Err
         case Ok(b, r') => Ok(VarV(b), r'))
    case Struct(ts) =>
      (match Take(s, BitfieldBytes(|ts|))
       case Err => Err
       case Ok(bf, r) =>
         match DecodeFields(ts, Flags(bf, |ts|), r)
         case Err => Err
         case Ok(vs, r') => Ok(StructV(vs), r'))
    case List(_, e) =>
      (match TakeU32(s)
       case Err => Err
       case Ok(n, r) =>
         match DecodeList(e, n, r)
         case Err => Err
         case Ok(vs, r') => Ok(ListV(vs), r'))
    case FixedSizeList(n, e) =>
      (match DecodeList(e, n, s)
       case Err => Err
       case Ok(vs, r) => Ok(ListV(vs), r))
    case Map(k, i) =>
      (match TakeU32(s)
       case Err => Err
       case Ok(n, r) =>
         // keys are never null, so the code takes one byte per entry as a lower bound
         if n > |r| then Err
         else match DecodeElems(k, seq(n, _ => false), r)
           case Err => Err
           case Ok(ks, r') =>
             match DecodeList(i, n, r')
             case Err => Err
             case Ok(vs, r'') => Ok(MapV(ks, vs), r''))
    case Union(_, codes, arms) =>
      (match Take(s, 1)
       case Err => Err
       case Ok(b, r) =>
         var arm := if b[0] >= 128 then -1 else ChildId(codes, b[0]);
         if arm < 0 || arm >= |arms| then Err
         else match Decode(arms[arm], r)
           case Err => Err
           case Ok(v, r') => Ok(UnionV(b[0], v), r'))
  }

  /** A bitfield for `n` slots, then the payloads of the non-null ones. */
  function DecodeList(t: Type, n: nat, s: bytes): Decoded<seq<Value>>
    decreases t, 3
  {
    match Take(s, BitfieldBytes(n))
    case Err => Err
    case Ok(bf, r) => DecodeElems(t, Flags(bf, n), r)
  }

  function DecodeSlot(t: Type, isNull: bool, s: bytes): Decoded<Value>
    decreases t, 1
  {
    if isNull then Ok(Null, s) else Decode(t, s)
  }

  function DecodeElems(t: Type, nulls: seq<bool>, s: bytes): Decoded<seq<Value>>
    decreases t, 2, |nulls|
  {
    if nulls == [] then Ok([], s)
    else match DecodeSlot(t, nulls[0], s)
      case Err => Err
      case Ok(v, r) => Cons(v, DecodeElems(t, nulls[1..], r))
  }

  function DecodeFields(ts: seq<Type>, nulls: seq<bool>, s: bytes): Decoded<seq<Value>>
    requires |ts| == |nulls|
    decreases ts, 0
  {
    if ts == [] then Ok([], s)
    else match DecodeSlot(ts[0], nulls[0], s)
      case Err => Err
      case Ok(v, r) => Cons(v, DecodeFields(ts[1..], nulls[1..], r))
  }

  function Cons(v: Value, tail: Decoded<seq<Value>>): Decoded<seq<Value>>
  {
    match tail
    case Err => Err
    case Ok(vs, r) => Ok([v] + vs, r)
  }

  // ----- rows -----

  /** A whole row: one struct body whose bytes must be consumed exactly. */
  function DecodeRow(schema: seq<Type>, s: bytes): (r: Decoded<seq<Value>>)
    ensures r.Ok? ==> r.rest == []
  {
    match Decode(Struct(schema), s)
    case Err => Err
    case Ok(v, r) => if r == [] && v.StructV? then Ok(v.fields, []) else Err
  }

  function EncodeRow(schema: seq<Type>, row: seq<Value>): bytes
    requires HasType(Struct(schema), StructV(row))
  {
    Encode(Struct(schema), StructV(row))
  }
}
