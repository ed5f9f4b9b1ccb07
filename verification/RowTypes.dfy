/** Arrow types as the row codec sees them, and the logical values of those types.

    Every numeric, temporal, interval, decimal and fixed-size-binary type is `Fixed(width)`, a run
    of little-endian bytes; every utf8/binary type is `VarLen`, `budgeted` when its Arrow offsets
    are 32 bits wide. */
module RowTypes {
  import opened Wire

  datatype Type =
    | Bool
    | Fixed(width: nat)
    | VarLen(budgeted: bool)
    | Struct(fields: seq<Type>)
    | List(large: bool, elem: Type)
    | FixedSizeList(size: nat, elem: Type)
    | Map(key: Type, item: Type)
    | Union(dense: bool, codes: seq<nat>, arms: seq<Type>)

  datatype Value =
    | Null
    | BoolV(b: bool)
    | FixedV(raw: bytes)
    | VarV(data: bytes)
    | StructV(fields: seq<Value>)
    | ListV(elems: seq<Value>)
    | MapV(keys: seq<Value>, items: seq<Value>)
    | UnionV(code: nat, arm: Value)

  /** Union type codes are distinct 7-bit numbers, one per arm, and there is at least one arm. */
  predicate UnionOk(codes: seq<nat>, arms: seq<Type>)
  {
    && 0 < |codes| == |arms|
    && (forall i | 0 <= i < |codes| :: codes[i] < 128)
    && (forall i, j | 0 <= i < j < |codes| :: codes[i] != codes[j])
  }

  /** The types Arrow can construct and the decoders accept.  A `Fixed` type is at least one byte wide. */
  predicate TypeOk(t: Type)
  {
    match t
    case Bool => true
    case Fixed(w) => w > 0
    case VarLen(_) => true
    case Struct(ts) => TypesOk(ts)
    case List(_, e) => TypeOk(e)
    case FixedSizeList(_, e) => TypeOk(e)
    case Map(k, i) => TypeOk(k) && TypeOk(i)
    case Union(_, codes, arms) => UnionOk(codes, arms) && TypesOk(arms)
  }

  predicate TypesOk(ts: seq<Type>)
  {
    forall i | 0 <= i < |ts| :: TypeOk(ts[i])
  }

  /** The index of the arm with type code `code`, or -1: Arrow's `child_ids()[code]`. */
  function ChildId(codes: seq<nat>, code: nat): (r: int)
    ensures -1 <= r < |codes|
    ensures r >= 0 ==> codes[r] == code
    ensures r == -1 ==> code !in codes
  {
    if codes == [] then -1
    else if codes[|codes| - 1] == code then |codes| - 1
    else ChildId(codes[..|codes| - 1], code)
  }

  /** `v` is a non-null value of type `t` that the wire format can carry. */
  ghost predicate HasType(t: Type, v: Value)
    decreases t, 0
  {
    match t
    case Bool => v.BoolV?
    case Fixed(w) => v.FixedV? && |v.raw| == w
    case VarLen(_) => v.VarV? && |v.data| < U32_LIMIT
    case Struct(ts) => v.StructV? && |v.fields| == |ts| && SlotsHaveTypes(ts, v.fields)
    case List(_, e) => v.ListV? && |v.elems| < U32_LIMIT && SlotsHaveType(e, v.elems)
    case FixedSizeList(n, e) => v.ListV? && |v.elems| == n && SlotsHaveType(e, v.elems)
    case Map(k, i) =>
      && v.MapV? && |v.keys| == |v.items| < U32_LIMIT
      && SlotsHaveType(k, v.keys) && Null !in v.keys && SlotsHaveType(i, v.items)
    case Union(_, codes, arms) =>
      && v.UnionV?
      && var arm := ChildId(codes, v.code);
      && v.code < 128 && 0 <= arm < |arms| && HasType(arms[arm], v.arm)
  }

  ghost predicate SlotHasType(t: Type, v: Value)
    decreases t, 1
  {
    v == Null || HasType(t, v)
  }

  /** Each slot is null or a value of the element type. */
  ghost predicate SlotsHaveType(t: Type, vs: seq<Value>)
    decreases t, 2
  {
    forall i | 0 <= i < |vs| :: SlotHasType(t, vs[i])
  }

  ghost predicate SlotsHaveTypes(ts: seq<Type>, vs: seq<Value>)
    requires |ts| == |vs|
    decreases ts, 2
  {
    forall i | 0 <= i < |vs| :: SlotHasType(ts[i], vs[i])
  }

  /** The null flags of a run of slots, in bitfield order. */
  function NullFlags(vs: seq<Value>): (r: seq<bool>)
    ensures |r| == |vs|
  {
    seq(|vs|, i requires 0 <= i < |vs| => vs[i] == Null)
  }
}
