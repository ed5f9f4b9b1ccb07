/** The decode code that the generator emits for a message class: the field tree it starts from, the
    lines it writes, the statements those lines spell, and what the statements do.

    A class name in emitted code stands for that class's own generated decoder, so a struct read
    carries the code of its members.  Members and locals hold logical values; an empty
    `std::optional` is `Null`, a `std::vector` is `ListV`, a vector of pairs is `MapV`. */
module EdgeCode {
  import opened Wire
  import opened RowTypes
  import opened CodecSpec

  // ----- the field tree -----

  datatype Ir = Ir(nullable: bool, node: Node)

  datatype Node =
    | ScalarN(scalar: Type)
    | StructN(fields: seq<Ir>)
    | ListN(elem: Ir)
    | MapN(key: Ir, value: Ir)
    | FixedSizeListN(elem: Ir, size: nat)
    | UnsupportedN

  // ----- statements -----

  /** What one read yields: a scalar, or an object of a generated class. */
  datatype Leaf = ScalarLeaf(scalar: Type) | StructLeaf(members: seq<Code>)

  datatype Prim =
    | Reset
    | Emplace
    | Clear(pairs: bool)
    | Store(leaf: Leaf)
    | Header(d: nat)
    | Resize(d: nat, nested: bool)
    | StoreAt(d: nat, leaf: Leaf)
    | Push(leaf: Leaf)
    | MapCount
    | NewKeys
    | PushKey(leaf: Leaf)
    | ValueBits
    | PushPair(leaf: Leaf)

  datatype Over = OverHeader(d: nat) | OverMap

  datatype Item =
    | Run(prim: Prim)
    | Guard(field: nat, yes: seq<Item>, no: seq<Item>)
    | Loop(over: Over, body: seq<Item>)
    | Block(body: seq<Item>)

  datatype Code = Code(items: seq<Item>)

  // ----- lines -----

  datatype Line =
    | Do(prim: Prim)
    | OpenGuard(field: nat)
    | Otherwise
    | OpenLoop(over: Over)
    | OpenBlock
    | Close

  /** The lines that spell a list of statements; an empty else branch is not written. */
  function Lines(items: seq<Item>): seq<Line>
    decreases items, 0
  {
    if items == [] then [] else LinesOf(items[0]) + Lines(items[1..])
  }

  function LinesOf(item: Item): seq<Line>
    decreases item, 0
  {
    match item
    case Run(p) => [Do(p)]
    case Guard(k, yes, no) =>
      [OpenGuard(k)] + Lines(yes) + (if no == [] then [] else [Otherwise] + Lines(no)) + [Close]
    case Loop(over, body) => [OpenLoop(over)] + Lines(body) + [Close]
    case Block(body) => [OpenBlock] + Lines(body) + [Close]
  }

  // ----- what the statements do -----

  /** The member being decoded, the locals `lh_d.count`, `i_d`, `keys_` and `count`, and the reader. */
  datatype Env = Env(
    member: Value, counts: seq<nat>, idx: seq<nat>, keys: seq<Value>, count: nat, nulls: seq<bool>, rest: bytes)

  datatype Ran = Fault | At(env: Env)

  /** The element a chain of indices names, and the member with that element replaced. */
  function GetAt(v: Value, path: seq<nat>): Value
    decreases |path|
  {
    if path == [] then v
    else if v.ListV? && path[0] < |v.elems| then GetAt(v.elems[path[0]], path[1..])
    else Null
  }

  predicate HasPath(v: Value, path: seq<nat>)
    decreases |path|
  {
    path == [] || (v.ListV? && path[0] < |v.elems| && HasPath(v.elems[path[0]], path[1..]))
  }

  function SetAt(v: Value, path: seq<nat>, x: Value): Value
    requires HasPath(v, path)
    decreases |path|
  {
    if path == [] then x
    else ListV(v.elems[path[0] := SetAt(v.elems[path[0]], path[1..], x)])
  }

  /** `resize`: elements that fit are kept as they are. */
  function Resized(v: Value, n: nat, nested: bool): Value
  {
    var kept := if v.ListV? then v.elems else [];
    var blank := if nested then ListV([]) else Null;
    if n <= |kept| then ListV(kept[..n]) else ListV(kept + seq(n - |kept|, _ => blank))
  }

  function ExecAll(items: seq<Item>, e: Env): Ran
    decreases items, 0, 0
  {
    if items == [] then At(e)
    else match Exec(items[0], e)
      case Fault => Fault
      case At(e') => ExecAll(items[1..], e')
  }

  function Exec(item: Item, e: Env): Ran
    decreases item, 2, 0
  {
    match item
    case Run(p) => ExecPrim(p, e)
    case Guard(k, yes, no) => if k < |e.nulls| && !e.nulls[k] then ExecAll(yes, e) else ExecAll(no, e)
    case Block(body) => ExecAll(body, e)
    case Loop(over, body) =>
      match over
      case OverHeader(d) => if d < |e.counts| then ExecLoop(body, d, 0, e.counts[d], e) else Fault
      case OverMap => ExecLoop(body, 0, 0, e.count, e)
  }

  /** Iterations `i` up to `n` of a loop whose index is `i_d`. */
  function ExecLoop(body: seq<Item>, d: nat, i: nat, n: nat, e: Env): Ran
    decreases body, 1, n - i
  {
    if i >= n then At(e)
    else if d > |e.idx| then Fault
    else match ExecAll(body, e.(idx := e.idx[..d] + [i]))
      case Fault => Fault
      case At(e') => ExecLoop(body, d, i + 1, n, e')
  }

  function ExecPrim(p: Prim, e: Env): Ran
    decreases p, 1, 0
  {
    match p
    case Reset => At(e.(member := Null))
    case Emplace => At(e.(member := ListV([])))
    case Clear(pairs) => At(e.(member := if pairs then MapV([], []) else ListV([])))
    case Store(leaf) =>
      (match Read(leaf, e.rest)
       case Err => Fault
       case Ok(v, r) => At(e.(member := v, rest := r)))
    case Header(d) =>
      (match ReadHeader(e.rest)
       case Err => Fault
       case Ok(n, r) => if d <= |e.counts| then At(e.(counts := e.counts[..d] + [n], rest := r)) else Fault)
    case Resize(d, nested) =>
      if d <= |e.idx| && d < |e.counts| && HasPath(e.member, e.idx[..d]) then
        At(e.(member := SetAt(e.member, e.idx[..d], Resized(GetAt(e.member, e.idx[..d]), e.counts[d], nested))))
      else Fault
    case StoreAt(d, leaf) =>
      if d <= |e.idx| && HasPath(e.member, e.idx[..d]) then
        match Read(leaf, e.rest)
        case Err => Fault
        case Ok(v, r) => At(e.(member := SetAt(e.member, e.idx[..d], v), rest := r))
      else Fault
    case Push(leaf) =>
      (match Read(leaf, e.rest)
       case Err => Fault
       case Ok(v, r) => if e.member.ListV? then At(e.(member := ListV(e.member.elems + [v]), rest := r)) else Fault)
    case MapCount =>
      (match ReadMapCount(e.rest)
       case Err => Fault
       case Ok(n, r) => At(e.(count := n, rest := r)))
    case NewKeys => At(e.(keys := []))
    case PushKey(leaf) =>
      (match Read(leaf, e.rest)
       case Err => Fault
       case Ok(v, r) => At(e.(keys := e.keys + [v], rest := r)))
    case ValueBits =>
      (match Take(e.rest, BitfieldBytes(e.count))
       case Err => Fault
       case Ok(_, r) => At(e.(rest := r)))
    case PushPair(leaf) =>
      (match Read(leaf, e.rest)
       case Err => Fault
       case Ok(v, r) =>
         if e.member.MapV? && e.idx != [] && e.idx[0] < |e.keys| then
           At(e.(member := MapV(e.member.keys + [e.keys[e.idx[0]]], e.member.items + [v]), rest := r))
         else Fault)
  }

  /** `ReadListHeader`: the count and the element bitfield, which the emitted code does not look at. */
  function ReadHeader(s: bytes): Decoded<nat>
  {
    match TakeU32(s)
    case Err => Err
    case Ok(n, r) =>
      match Take(r, BitfieldBytes(n))
      case Err => Err
      case Ok(_, r') => Ok(n, r')
  }

  /** `ReadMapCount`: a count that the bytes left could hold, keys taking at least one byte each. */
  function ReadMapCount(s: bytes): Decoded<nat>
  {
    match TakeU32(s)
    case Err => Err
    case Ok(n, r) => if n > |r| then Err else Ok(n, r)
  }

  /** One value off the reader; a struct reads its own bitfield and then decodes a new object.  Its
      reader hands the cursor back at the end of the enclosing block, before anything else is read. */
  function Read(leaf: Leaf, s: bytes): Decoded<Value>
    decreases leaf, 1, 0
  {
    match leaf
    case ScalarLeaf(t) => Decode(t, s)
    case StructLeaf(members) =>
      match Take(s, BitfieldBytes(|members|))
      case Err => Err
      case Ok(bf, r) =>
        match DecodeMembers(members, seq(|members|, _ => Null), Flags(bf, |members|), r)
        case Err => Err
        case Ok(vs, r') => Ok(StructV(vs), r')
  }

  /** `DecodeFrom_`: each member in turn, starting from what it held before. */
  function DecodeMembers(members: seq<Code>, was: seq<Value>, nulls: seq<bool>, s: bytes): Decoded<seq<Value>>
    requires |was| == |members|
    decreases members, 0, 0
  {
    if members == [] then Ok([], s)
    else match ExecAll(members[0].items, Env(was[0], [], [], [], 0, nulls, s))
      case Fault => Err
      case At(e) => Cons(e.member, DecodeMembers(members[1..], was[1..], nulls, e.rest))
  }
}
