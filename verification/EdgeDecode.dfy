/** What the emitted decode code means.  It is a decoder that looks at a null flag only where a guard
    was emitted; on rows that are null nowhere else it is the generic decoder. */
module EdgeDecode {
  import opened Wire
  import opened RowTypes
  import opened CodecSpec
  import opened EdgeCode
  import opened EdgeVisitor

  // ----- the generic side -----

  function WireType(ir: Ir): Type
    decreases ir
  {
    match ir.node
    case ScalarN(t) => t
    case StructN(fields) => Struct(WireTypes(fields))
    case ListN(e) => List(false, WireType(e))
    case MapN(k, v) => Map(WireType(k), WireType(v))
    case FixedSizeListN(e, n) => FixedSizeList(n, WireType(e))
    case UnsupportedN => Struct([])
  }

  function WireTypes(fields: seq<Ir>): (ts: seq<Type>)
    ensures |ts| == |fields|
    decreases fields
  {
    if fields == [] then [] else [WireType(fields[0])] + WireTypes(fields[1..])
  }

  /** The fields a message class keeps; the others never reach the visitor. */
  predicate Supported(ir: Ir)
    decreases ir
  {
    match ir.node
    case ScalarN(t) => t.Bool? || t.Fixed? || t.VarLen?
    case StructN(fields) => forall k | 0 <= k < |fields| :: Supported(fields[k])
    case ListN(e) => Supported(e) && IsLeaf(Core(e))
    case MapN(k, v) => k.node.ScalarN? && IsLeaf(v) && Supported(k) && Supported(v)
    case _ => false
  }

  // ----- the blind decoder -----

  /** A guard on the field's null flag is emitted. */
  predicate Guarded(ir: Ir) { ir.nullable && (IsLeaf(ir) || IsNested(ir)) }

  /** A field: a null one is reset, except that a null nested list keeps what the member held. */
  function BlindField(ir: Ir, isNull: bool, was: Value, s: bytes): Decoded<Value>
    decreases ir, 1
  {
    if Guarded(ir) && isNull then Ok(if IsNested(ir) then was else Null, s) else Blind(ir, s)
  }

  /** A value whose null flags, if any, are read past. */
  function Blind(ir: Ir, s: bytes): Decoded<Value>
    decreases ir, 0
  {
    match ir.node
    case ScalarN(t) => Decode(t, s)
    case StructN(fields) =>
      (match Take(s, BitfieldBytes(|fields|))
       case Err => Err
       case Ok(bf, r) =>
         match BlindFields(fields, seq(|fields|, _ => Null), Flags(bf, |fields|), r)
         case Err => Err
         case Ok(vs, r') => Ok(StructV(vs), r'))
    case ListN(e) =>
      (match ReadHeader(s)
       case Err => Err
       case Ok(n, r) =>
         match BlindElems(e, n, r)
         case Err => Err
         case Ok(vs, r') => Ok(ListV(vs), r'))
    case MapN(k, v) =>
      (match ReadMapCount(s)
       case Err => Err
       case Ok(n, r) =>
         match BlindElems(k, n, r)
         case Err => Err
         case Ok(ks, r') =>
           match Take(r', BitfieldBytes(n))
           case Err => Err
           case Ok(_, r'') =>
             match BlindElems(v, n, r'')
             case Err => Err
             case Ok(vs, r3) => Ok(MapV(ks, vs), r3))
    case _ => Err
  }

  function BlindElems(ir: Ir, n: nat, s: bytes): Decoded<seq<Value>>
    decreases ir, 1, n
  {
    if n == 0 then Ok([], s)
    else match Blind(ir, s)
      case Err => Err
      case Ok(v, r) => Cons(v, BlindElems(ir, n - 1, r))
  }

  function BlindFields(fields: seq<Ir>, was: seq<Value>, nulls: seq<bool>, s: bytes): Decoded<seq<Value>>
    requires |fields| == |was| == |nulls|
    decreases fields, 0
  {
    if fields == [] then Ok([], s)
    else match BlindField(fields[0], nulls[0], was[0], s)
      case Err => Err
      case Ok(v, r) => Cons(v, BlindFields(fields[1..], was[1..], nulls[1..], r))
  }

  // ----- elements behind a chain of indices -----

  lemma {:induction false} SetTwice(v: Value, p: seq<nat>, x: Value, y: Value)
    requires HasPath(v, p)
    ensures HasPath(SetAt(v, p, x), p) && GetAt(SetAt(v, p, x), p) == x && SetAt(SetAt(v, p, x), p, y) == SetAt(v, p, y)
    decreases |p|
  {
    if p != [] { SetTwice(v.elems[p[0]], p[1..], x, y); }
  }

  lemma {:induction false} SetInner(v: Value, p: seq<nat>, i: nat, x: Value)
    requires HasPath(v, p) && GetAt(v, p).ListV? && i < |GetAt(v, p).elems|
    ensures HasPath(v, p + [i]) && SetAt(v, p + [i], x) == SetAt(v, p, ListV(GetAt(v, p).elems[i := x]))
    decreases |p|
  {
    if p == [] {
      assert p + [i] == [i] && [i][1..] == [];
      assert SetAt(v.elems[i], [], x) == x;
    } else {
      assert (p + [i])[0] == p[0] && (p + [i])[1..] == p[1..] + [i];
      SetInner(v.elems[p[0]], p[1..], i, x);
    }
  }

  // ----- the emitted code is the blind decoder -----

  lemma {:induction false} Two(a: Item, b: Item, e: Env)
    ensures ExecAll([a, b], e) == match Exec(a, e) case Fault => Fault case At(e') => Exec(b, e')
  {
    hide Exec;
    assert [a, b][1..] == [b];
    if Exec(a, e).At? { Single(b, Exec(a, e).env); }
  }

  lemma {:induction false} Single(a: Item, e: Env)
    ensures ExecAll([a], e) == Exec(a, e)
  {
    hide Exec;
    assert [a][1..] == [];
    if Exec(a, e).At? { assert ExecAll([], Exec(a, e).env) == At(Exec(a, e).env); }
  }

  lemma {:induction false} Chain(a: Item, rest: seq<Item>, e: Env)
    ensures ExecAll([a] + rest, e) == match Exec(a, e) case Fault => Fault case At(e') => ExecAll(rest, e')
  {
    hide Exec;
    assert ([a] + rest)[1..] == rest;
  }

  /** A struct or scalar read by emitted code. */
  lemma {:induction false} ReadIsBlind(ir: Ir, s: bytes)
    requires IsLeaf(ir) && Supported(ir)
    ensures Read(LeafOf(ir), s) == Blind(ir, s)
    decreases ir, 0, 0
  {
    if ir.node.StructN? {
      var fields := ir.node.fields;
      var bf := Take(s, BitfieldBytes(|fields|));
      if bf.Ok? {
        MembersAreBlind(fields, 0, seq(|fields|, _ => Null), Flags(bf.val, |fields|), bf.rest);
      }
      hide DecodeMembers, BlindFields, Members, Flags;
    }
  }

  /** A class's own decoder. */
  lemma {:induction false} MembersAreBlind(fields: seq<Ir>, k: nat, was: seq<Value>, nulls: seq<bool>, s: bytes)
    requires |was| == |fields| && |nulls| == k + |fields| && forall j | 0 <= j < |fields| :: Supported(fields[j])
    ensures DecodeMembers(Members(fields, k), was, nulls, s) == BlindFields(fields, was, nulls[k..], s)
    decreases fields, 0, 0
  {
    hide Emit, ExecAll, BlindField, Supported;
    if fields != [] {
      var e := Env(was[0], [], [], [], 0, nulls, s);
      FieldIsBlind(fields[0], k, e);
      assert nulls[k..][0] == nulls[k] && nulls[k..][1..] == nulls[k + 1..];
      var ms := Members(fields, k);
      assert ms[0] == Code(Emit(fields[0], k)) && ms[1..] == Members(fields[1..], k + 1);
      var ran := ExecAll(Emit(fields[0], k), e);
      if ran.At? { MembersAreBlind(fields[1..], k + 1, was[1..], nulls, ran.env.rest); }
    }
  }

  /** A finished run agrees with a decoder's answer. */
  ghost predicate Agrees(ran: Ran, d: Decoded<Value>)
  {
    match d
    case Err => ran == Fault
    case Ok(v, r) => ran.At? && ran.env.member == v && ran.env.rest == r
  }

  /** The code of one field, run on any reader and over anything the member held. */
  lemma {:induction false} FieldIsBlind(ir: Ir, k: nat, e: Env)
    requires Supported(ir) && k < |e.nulls|
    ensures Agrees(ExecAll(Emit(ir, k), e), BlindField(ir, e.nulls[k], e.member, e.rest))
    decreases ir, 4, 0
  {
    match ir.node
    case ScalarN(_) => OneRuns(ir, k, e);
    case StructN(_) => OneRuns(ir, k, e);
    case ListN(elem) => if IsLeaf(elem) { ListRuns(ir, e); } else { NestedRuns(ir, k, e); }
    case MapN(_, _) => MapRuns(ir, e);
    case _ =>
  }

  lemma {:induction false} OneRuns(ir: Ir, k: nat, e: Env)
    requires IsLeaf(ir) && Supported(ir) && k < |e.nulls|
    ensures Agrees(ExecAll(ReadOne(ir.nullable, k, LeafOf(ir)), e), BlindField(ir, e.nulls[k], e.member, e.rest))
    decreases ir, 1, 0
  {
    ReadIsBlind(ir, e.rest);
    var leaf := LeafOf(ir);
    hide LeafOf, Read, Blind;
    Single(Run(Store(leaf)), e);
    Single(Run(Reset), e);
    Single(Guard(k, [Run(Store(leaf))], [Run(Reset)]), e);
    Single(Block([Run(Store(leaf))]), e);
  }

  lemma LoopStep(body: seq<Item>, d: nat, i: nat, n: nat, e: Env)
    requires i < n && d <= |e.idx|
    ensures ExecLoop(body, d, i, n, e)
         == match ExecAll(body, e.(idx := e.idx[..d] + [i])) case Fault => Fault case At(e') => ExecLoop(body, d, i + 1, n, e')
  {
    hide ExecAll;
  }

  lemma {:induction false} LoopEnd(body: seq<Item>, d: nat, n: nat, e: Env)
    ensures ExecLoop(body, d, n, n, e) == At(e)
  {
  }

  lemma ElemsStep(ir: Ir, n: nat, s: bytes)
    requires n > 0
    ensures BlindElems(ir, n, s) == match Blind(ir, s) case Err => Err case Ok(v, r) => Cons(v, BlindElems(ir, n - 1, r))
  {
    hide Blind;
  }

  lemma {:induction false} ElemsEnd(ir: Ir, s: bytes)
    ensures BlindElems(ir, 0, s) == Ok([], s)
  {
  }

  lemma {:induction false} PushOnce(leaf: Leaf, e: Env)
    requires e.member.ListV?
    ensures ExecAll([Run(Push(leaf))], e)
         == match Read(leaf, e.rest) case Err => Fault case Ok(v, r) => At(e.(member := ListV(e.member.elems + [v]), rest := r))
  {
    Single(Run(Push(leaf)), e);
    hide Read, ExecAll;
  }

  lemma {:induction false} PushRuns(ir: Ir, i: nat, n: nat, e: Env)
    requires IsLeaf(ir) && Supported(ir) && i <= n && e.member.ListV?
    ensures var d := BlindElems(ir, n - i, e.rest);
            Agrees(ExecLoop([Run(Push(LeafOf(ir)))], 0, i, n, e), if d.Err? then Err else Ok(ListV(e.member.elems + d.val), d.rest))
    decreases ir, 1, n - i
  {
    var leaf := LeafOf(ir);
    hide LeafOf, Read, Blind, BlindElems, Supported, ExecLoop, ExecAll;
    if i == n {
      LoopEnd([Run(Push(leaf))], 0, n, e);
      ElemsEnd(ir, e.rest);
      assert e.member.elems + [] == e.member.elems;
    } else {
      var e1 := e.(idx := e.idx[..0] + [i]);
      ReadIsBlind(ir, e.rest);
      LoopStep([Run(Push(leaf))], 0, i, n, e);
      PushOnce(leaf, e1);
      ElemsStep(ir, n - i, e.rest);
      var b := Blind(ir, e.rest);
      if b.Ok? {
        PushRuns(ir, i + 1, n, e1.(member := ListV(e.member.elems + [b.val]), rest := b.rest));
        var t := BlindElems(ir, n - i - 1, b.rest);
        if t.Ok? { assert e.member.elems + ([b.val] + t.val) == e.member.elems + [b.val] + t.val; }
      }
    }
  }

  lemma {:induction false} ListOpened(leaf: Leaf, e: Env)
    ensures ExecAll(ReadList(leaf), e)
         == match ReadHeader(e.rest)
            case Err => Fault
            case Ok(n, r) => ExecLoop([Run(Push(leaf))], 0, 0, n, e.(counts := [n], rest := r, member := ListV([])))
  {
    var loop := Loop(OverHeader(0), [Run(Push(leaf))]);
    Single(Block([Run(Header(0)), Run(Clear(false)), loop]), e);
    Chain(Run(Header(0)), [Run(Clear(false)), loop], e);
    hide ExecLoop, ExecAll, Read, ReadHeader;
    var h := ReadHeader(e.rest);
    if h.Ok? {
      assert e.counts[..0] + [h.val] == [h.val];
      Two(Run(Clear(false)), loop, e.(counts := [h.val], rest := h.rest));
    }
  }

  lemma {:induction false} ListRuns(ir: Ir, e: Env)
    requires ir.node.ListN? && IsLeaf(ir.node.elem) && Supported(ir)
    ensures Agrees(ExecAll(ReadList(LeafOf(ir.node.elem)), e), Blind(ir, e.rest))
    decreases ir, 1, 0
  {
    hide LeafOf, ExecLoop, BlindElems, Blind, ExecAll, ReadList, ReadHeader;
    ListOpened(LeafOf(ir.node.elem), e);
    ListUnfold(ir, e.rest);
    var h := ReadHeader(e.rest);
    if h.Ok? {
      PushRuns(ir.node.elem, 0, h.val, e.(counts := [h.val], rest := h.rest, member := ListV([])));
      var b := BlindElems(ir.node.elem, h.val, h.rest);
      if b.Ok? { assert [] + b.val == b.val; }
    }
  }

  // ----- nested lists -----

  /** A run that replaced the element at the first `d` indices by a decoder's answer. */
  ghost predicate AgreesAt(ran: Ran, e: Env, d: nat, b: Decoded<Value>)
    requires d <= |e.idx| && HasPath(e.member, e.idx[..d])
  {
    match b
    case Err => ran == Fault
    case Ok(v, r) =>
      && ran.At? && ran.env.rest == r && d <= |ran.env.counts|
      && d <= |ran.env.idx| && ran.env.idx[..d] == e.idx[..d]
      && ran.env.member == SetAt(e.member, e.idx[..d], v)
  }

  /** List level `d`: whatever the element at the indices so far held, it ends as the decoded list. */
  lemma {:induction false} LevelRuns(ir: Ir, d: nat, depth: nat, e: Env)
    requires Supported(ir) && IsLeaf(Core(ir)) && depth == d + Depth(ir)
    requires d <= |e.idx| && d <= |e.counts| && HasPath(e.member, e.idx[..d])
    ensures AgreesAt(ExecAll(Levels(d, depth, LeafOf(Core(ir))), e), e, d, Blind(ir, e.rest))
    decreases ir, 2, 0
  {
    if ir.node.ListN? {
      ListLevel(ir, d, depth, e);
    } else {
      ReadIsBlind(ir, e.rest);
      Single(Run(StoreAt(depth, LeafOf(ir))), e);
      hide LeafOf, Blind, Read, ExecAll;
    }
  }

  lemma OpenRuns(d: nat, nested: bool, e: Env)
    requires d <= |e.idx| && d <= |e.counts| && HasPath(e.member, e.idx[..d])
    ensures var h := ReadHeader(e.rest);
            var e1 := e.(counts := e.counts[..d] + [if h.Ok? then h.val else 0], rest := if h.Ok? then h.rest else []);
            Exec(Run(Header(d)), e) == if h.Ok? then At(e1) else Fault
    ensures var h := ReadHeader(e.rest);
            var e1 := e.(counts := e.counts[..d] + [if h.Ok? then h.val else 0], rest := if h.Ok? then h.rest else []);
            Exec(Run(Resize(d, nested)), e1)
            == At(e1.(member := SetAt(e.member, e.idx[..d], Resized(GetAt(e.member, e.idx[..d]), e1.counts[d], nested))))
  {
    hide ReadHeader, Resized, SetAt, GetAt, HasPath;
  }

  lemma {:induction false} ListLevel(ir: Ir, d: nat, depth: nat, e: Env)
    requires ir.node.ListN? && Supported(ir) && IsLeaf(Core(ir)) && depth == d + Depth(ir)
    requires d <= |e.idx| && d <= |e.counts| && HasPath(e.member, e.idx[..d])
    ensures AgreesAt(ExecAll(Levels(d, depth, LeafOf(Core(ir))), e), e, d, Blind(ir, e.rest))
    decreases ir, 1, 0
  {
    var leaf, p, h := LeafOf(Core(ir)), e.idx[..d], ReadHeader(e.rest);
    assert Core(ir.node.elem) == Core(ir) && Depth(ir) == 1 + Depth(ir.node.elem);
    LevelOpens(d, depth, leaf, e);
    ListUnfold(ir, e.rest);
    hide LeafOf, BlindElems, ExecAll, ExecLoop, Levels, Blind, Core, Depth, SetAt, GetAt, HasPath, AgreesAt, Joined, Resized;
    if h.Ok? {
      var list := Resized(GetAt(e.member, p), h.val, d + 1 < depth);
      var e2 := e.(counts := e.counts[..d] + [h.val], rest := h.rest, member := SetAt(e.member, p, list));
      SetTwice(e.member, p, list, list);
      ResizedTo(GetAt(e.member, p), h.val, d + 1 < depth);
      LoopRuns(ir.node.elem, d, depth, 0, h.val, e2);
      Filled(ExecLoop(Levels(d + 1, depth, leaf), d, 0, h.val, e2), e, e2, d, list, BlindElems(ir.node.elem, h.val, h.rest));
    } else {
      Faulted(e, d);
    }
  }

  lemma ResizedTo(v: Value, n: nat, nested: bool)
    ensures Resized(v, n, nested).ListV? && |Resized(v, n, nested).elems| == n
  {
  }

  /** Header and resize of a list level leave its loop. */
  lemma LevelOpens(d: nat, depth: nat, leaf: Leaf, e: Env)
    requires d < depth && d <= |e.idx| && d <= |e.counts| && HasPath(e.member, e.idx[..d])
    ensures ExecAll(Levels(d, depth, leaf), e)
         == match ReadHeader(e.rest)
            case Err => Fault
            case Ok(n, r) =>
              ExecLoop(Levels(d + 1, depth, leaf), d, 0, n,
                       e.(counts := e.counts[..d] + [n], rest := r,
                          member := SetAt(e.member, e.idx[..d], Resized(GetAt(e.member, e.idx[..d]), n, d + 1 < depth))))
  {
    var a, b, c := Run(Header(d)), Run(Resize(d, d + 1 < depth)), Loop(OverHeader(d), Levels(d + 1, depth, leaf));
    assert Levels(d, depth, leaf) == [a] + [b, c];
    Chain(a, [b, c], e);
    OpenRuns(d, d + 1 < depth, e);
    hide ExecAll, ExecLoop, ExecPrim, Levels, SetAt, GetAt, HasPath, Resized;
    var h := ReadHeader(e.rest);
    if h.Ok? { Two(b, c, e.(counts := e.counts[..d] + [h.val], rest := h.rest)); }
  }

  lemma Faulted(e: Env, d: nat)
    requires d <= |e.idx| && HasPath(e.member, e.idx[..d])
    ensures AgreesAt(Fault, e, d, Err)
  {
  }

  /** A resized list that was then filled from its first element on. */
  lemma {:induction false} Filled(ran: Ran, e: Env, e2: Env, d: nat, list: Value, t: Decoded<seq<Value>>)
    requires d <= |e.idx| && HasPath(e.member, e.idx[..d]) && list.ListV?
    requires e2.idx == e.idx && e2.member == SetAt(e.member, e.idx[..d], list) && HasPath(e2.member, e2.idx[..d])
    requires AgreesAt(ran, e2, d, if t.Err? then Err else Ok(Joined(list.elems, 0, t.val), t.rest))
    ensures AgreesAt(ran, e, d, match t case Err => Err case Ok(vs, r) => Ok(ListV(vs), r))
  {
    hide HasPath, SetAt;
    if t.Ok? {
      assert list.elems[..0] + t.val == t.val;
      SetTwice(e.member, e.idx[..d], list, ListV(t.val));
    }
  }

  lemma {:induction false} ListUnfold(ir: Ir, s: bytes)
    requires ir.node.ListN?
    ensures Blind(ir, s)
         == match ReadHeader(s)
            case Err => Err
            case Ok(n, r) =>
              match BlindElems(ir.node.elem, n, r)
              case Err => Err
              case Ok(vs, r') => Ok(ListV(vs), r')
  {
    hide BlindElems, ReadHeader;
  }

  /** Iterations `i` up to `n` of list level `d`. */
  lemma {:induction false} LoopRuns(elem: Ir, d: nat, depth: nat, i: nat, n: nat, e: Env)
    requires Supported(elem) && IsLeaf(Core(elem)) && depth == d + 1 + Depth(elem) && i <= n
    requires d <= |e.idx| && d < |e.counts| && HasPath(e.member, e.idx[..d])
    requires GetAt(e.member, e.idx[..d]).ListV? && |GetAt(e.member, e.idx[..d]).elems| == n
    ensures var b, was := BlindElems(elem, n - i, e.rest), GetAt(e.member, e.idx[..d]).elems;
            AgreesAt(ExecLoop(Levels(d + 1, depth, LeafOf(Core(elem))), d, i, n, e), e, d,
                     if b.Err? then Err else Ok(Joined(was, i, b.val), b.rest))
    decreases elem, 3, n - i, 1
  {
    hide Levels, LeafOf, Core, Depth, Supported, Blind, ExecAll, ExecLoop, BlindElems, HasPath, GetAt, SetAt, AgreesAt, Joined;
    if i == n {
      LoopEnd(Levels(d + 1, depth, LeafOf(Core(elem))), d, n, e);
      ElemsEnd(elem, e.rest);
      JoinedAll(GetAt(e.member, e.idx[..d]).elems);
      Unchanged(e, d);
    } else {
      LoopGoesOn(elem, d, depth, i, n, e);
    }
  }

  lemma {:induction false} LoopGoesOn(elem: Ir, d: nat, depth: nat, i: nat, n: nat, e: Env)
    requires Supported(elem) && IsLeaf(Core(elem)) && depth == d + 1 + Depth(elem) && i < n
    requires d <= |e.idx| && d < |e.counts| && HasPath(e.member, e.idx[..d])
    requires GetAt(e.member, e.idx[..d]).ListV? && |GetAt(e.member, e.idx[..d]).elems| == n
    ensures var b, was := BlindElems(elem, n - i, e.rest), GetAt(e.member, e.idx[..d]).elems;
            AgreesAt(ExecLoop(Levels(d + 1, depth, LeafOf(Core(elem))), d, i, n, e), e, d,
                     if b.Err? then Err else Ok(Joined(was, i, b.val), b.rest))
    decreases elem, 3, n - i, 0
  {
    hide Levels, LeafOf, Core, Depth, Supported, Blind, ExecAll, ExecLoop, BlindElems, HasPath, GetAt, SetAt, AgreesAt, Joined, IsLeaf;
    var p, body := e.idx[..d], Levels(d + 1, depth, LeafOf(Core(elem)));
    LoopStep(body, d, i, n, e);
    ElemsStep(elem, n - i, e.rest);
    LoopTurn(elem, d, depth, i, n, e);
    var b := Blind(elem, e.rest);
    if b.Ok? {
      var e2, t := ExecAll(body, e.(idx := p + [i])).env, BlindElems(elem, n - i - 1, b.rest);
      LoopRuns(elem, d, depth, i + 1, n, e2);
      Shifted(ExecLoop(body, d, i + 1, n, e2), e, e2, d, i, b.val, t);
    } else {
      Faulted(e, d);
    }
  }

  /** A list whose elements from `i` on are replaced. */
  ghost function Joined(was: seq<Value>, i: nat, vs: seq<Value>): Value
    requires i <= |was|
  {
    ListV(was[..i] + vs)
  }

  lemma JoinedAll(was: seq<Value>)
    ensures Joined(was, |was|, []) == ListV(was)
  {
    assert was[..|was|] + [] == was;
  }

  lemma Unchanged(e: Env, d: nat)
    requires d <= |e.idx| && d <= |e.counts| && HasPath(e.member, e.idx[..d])
    ensures AgreesAt(At(e), e, d, Ok(GetAt(e.member, e.idx[..d]), e.rest))
  {
    SetSame(e.member, e.idx[..d]);
    hide HasPath, GetAt, SetAt;
  }

  /** One iteration replaces one element. */
  lemma {:induction false} LoopTurn(elem: Ir, d: nat, depth: nat, i: nat, n: nat, e: Env)
    requires Supported(elem) && IsLeaf(Core(elem)) && depth == d + 1 + Depth(elem) && i < n
    requires d <= |e.idx| && d < |e.counts| && HasPath(e.member, e.idx[..d])
    requires GetAt(e.member, e.idx[..d]).ListV? && |GetAt(e.member, e.idx[..d]).elems| == n
    ensures var p, b := e.idx[..d], Blind(elem, e.rest);
            var ran := ExecAll(Levels(d + 1, depth, LeafOf(Core(elem))), e.(idx := p + [i]));
            && HasPath(e.member, p + [i]) && (b.Err? ==> ran == Fault)
            && (b.Ok? ==>
                  && ran.At? && ran.env.rest == b.rest && d < |ran.env.counts| && d <= |ran.env.idx| && ran.env.idx[..d] == p
                  && ran.env.member == SetAt(e.member, p + [i], b.val)
                  && HasPath(ran.env.member, p) && GetAt(ran.env.member, p).ListV? && |GetAt(ran.env.member, p).elems| == n
                  && GetAt(ran.env.member, p).elems == GetAt(e.member, p).elems[i := b.val])
    decreases elem, 2, 1
  {
    var p, b := e.idx[..d], Blind(elem, e.rest);
    var e1 := e.(idx := p + [i]);
    hide Levels, LeafOf, Core, Depth, Supported, Blind, ExecAll, HasPath, GetAt, SetAt;
    assert e1.idx[..d + 1] == p + [i] && (p + [i])[..d] == p;
    ReplacedSlot(e.member, p, i, if b.Ok? then b.val else Null, []);
    LevelRuns(elem, d + 1, depth, e1);
    if b.Ok? {
      var e2 := ExecAll(Levels(d + 1, depth, LeafOf(Core(elem))), e1).env;
      assert e2.idx[..d] == e2.idx[..d + 1][..d] == p;
    }
  }

  /** One element replaced, then the list from there on. */
  lemma {:induction false} ReplacedSlot(m: Value, p: seq<nat>, i: nat, v: Value, vs: seq<Value>)
    requires HasPath(m, p) && GetAt(m, p).ListV? && i < |GetAt(m, p).elems|
    ensures HasPath(m, p + [i])
    ensures var m', was := SetAt(m, p + [i], v), GetAt(m, p).elems;
            && HasPath(m', p) && GetAt(m', p) == ListV(was[i := v])
            && SetAt(m', p, ListV(was[i := v][..i + 1] + vs)) == SetAt(m, p, ListV(was[..i] + ([v] + vs)))
  {
    var was := GetAt(m, p).elems;
    SetInner(m, p, i, v);
    hide HasPath, GetAt, SetAt;
    assert was[i := v][..i + 1] + vs == was[..i] + ([v] + vs);
    SetTwice(m, p, ListV(was[i := v]), ListV(was[..i] + ([v] + vs)));
  }

  lemma {:induction false} Shifted(ran: Ran, e: Env, e2: Env, d: nat, i: nat, v: Value, t: Decoded<seq<Value>>)
    requires d <= |e.idx| && HasPath(e.member, e.idx[..d])
    requires GetAt(e.member, e.idx[..d]).ListV? && i < |GetAt(e.member, e.idx[..d]).elems|
    requires HasPath(e.member, e.idx[..d] + [i]) && e2.member == SetAt(e.member, e.idx[..d] + [i], v)
    requires d <= |e2.idx| && e2.idx[..d] == e.idx[..d] && HasPath(e2.member, e2.idx[..d])
    requires var was := GetAt(e.member, e.idx[..d]).elems;
             AgreesAt(ran, e2, d, if t.Err? then Err else Ok(Joined(was[i := v], i + 1, t.val), t.rest))
    ensures var was := GetAt(e.member, e.idx[..d]).elems;
            AgreesAt(ran, e, d, if t.Err? then Err else Ok(Joined(was, i, [v] + t.val), t.rest))
  {
    ReplacedSlot(e.member, e.idx[..d], i, v, if t.Ok? then t.val else []);
    hide HasPath, GetAt, SetAt;
  }

  lemma {:induction false} SetSame(v: Value, p: seq<nat>)
    requires HasPath(v, p)
    ensures SetAt(v, p, GetAt(v, p)) == v
    decreases |p|
  {
    if p != [] { SetSame(v.elems[p[0]], p[1..]); }
  }

  lemma {:induction false} NestedRuns(ir: Ir, k: nat, e: Env)
    requires IsNested(ir) && Supported(ir) && k < |e.nulls|
    ensures Agrees(ExecAll(Emit(ir, k), e), BlindField(ir, e.nulls[k], e.member, e.rest))
    decreases ir, 3, 0
  {
    var depth, leaf := Depth(ir), LeafOf(Core(ir));
    var levels := Levels(0, depth, leaf);
    assert Emit(ir, k) == ReadNested(ir.nullable, k, depth, leaf);
    hide LeafOf, Levels, Blind, Depth, Core, Emit;
    var e1 := e.(member := ListV([]));
    if ir.nullable {
      Single(Guard(k, [Run(Emplace)] + levels, []), e);
      Chain(Run(Emplace), levels, e);
      assert ExecAll([], e) == At(e);
      hide ExecAll;
      if !e.nulls[k] { LevelRuns(ir, 0, depth, e1); }
    } else {
      Single(Block(levels), e);
      hide ExecAll;
      LevelRuns(ir, 0, depth, e);
    }
  }

  // ----- maps -----

  lemma {:induction false} KeyOnce(leaf: Leaf, e: Env)
    ensures ExecAll([Run(PushKey(leaf))], e)
         == match Read(leaf, e.rest) case Err => Fault case Ok(v, r) => At(e.(keys := e.keys + [v], rest := r))
  {
    Single(Run(PushKey(leaf)), e);
    hide Read, ExecAll;
  }

  lemma {:induction false} KeyRuns(ir: Ir, i: nat, n: nat, e: Env)
    requires IsLeaf(ir) && Supported(ir) && i <= n
    ensures var ran := ExecLoop([Run(PushKey(LeafOf(ir)))], 0, i, n, e);
            match BlindElems(ir, n - i, e.rest)
            case Err => ran == Fault
            case Ok(ks, r) => ran.At? && ran.env.keys == e.keys + ks && ran.env.rest == r && ran.env.count == e.count
    decreases ir, 1, n - i
  {
    var leaf := LeafOf(ir);
    hide LeafOf, Read, Blind, BlindElems, Supported, ExecLoop, ExecAll;
    if i == n {
      LoopEnd([Run(PushKey(leaf))], 0, n, e);
      ElemsEnd(ir, e.rest);
      assert e.keys + [] == e.keys;
    } else {
      var e1 := e.(idx := e.idx[..0] + [i]);
      ReadIsBlind(ir, e.rest);
      LoopStep([Run(PushKey(leaf))], 0, i, n, e);
      KeyOnce(leaf, e1);
      ElemsStep(ir, n - i, e.rest);
      var b := Blind(ir, e.rest);
      if b.Ok? {
        KeyRuns(ir, i + 1, n, e1.(keys := e.keys + [b.val], rest := b.rest));
        var t := BlindElems(ir, n - i - 1, b.rest);
        if t.Ok? { assert e.keys + ([b.val] + t.val) == e.keys + [b.val] + t.val; }
      }
    }
  }

  lemma {:induction false} PairOnce(leaf: Leaf, e: Env)
    requires e.member.MapV? && e.idx != [] && e.idx[0] < |e.keys|
    ensures ExecAll([Run(PushPair(leaf))], e)
         == match Read(leaf, e.rest)
            case Err => Fault
            case Ok(v, r) => At(e.(member := MapV(e.member.keys + [e.keys[e.idx[0]]], e.member.items + [v]), rest := r))
  {
    Single(Run(PushPair(leaf)), e);
    assert Exec(Run(PushPair(leaf)), e) == ExecPrim(PushPair(leaf), e);
    hide Read, Exec, ExecAll, ExecLoop;
  }

  lemma {:induction false} PairRuns(ir: Ir, i: nat, n: nat, e: Env)
    requires IsLeaf(ir) && Supported(ir) && i <= n == |e.keys| && e.member.MapV?
    ensures var b := BlindElems(ir, n - i, e.rest);
            Agrees(ExecLoop([Run(PushPair(LeafOf(ir)))], 0, i, n, e),
                   if b.Err? then Err else Ok(MapV(e.member.keys + e.keys[i..], e.member.items + b.val), b.rest))
    decreases ir, 1, n - i
  {
    var leaf := LeafOf(ir);
    hide LeafOf, Read, Blind, BlindElems, Supported, ExecLoop, ExecAll;
    if i == n {
      LoopEnd([Run(PushPair(leaf))], 0, n, e);
      ElemsEnd(ir, e.rest);
      assert e.member.items + [] == e.member.items && e.member.keys + e.keys[i..] == e.member.keys;
    } else {
      var e1 := e.(idx := e.idx[..0] + [i]);
      ReadIsBlind(ir, e.rest);
      LoopStep([Run(PushPair(leaf))], 0, i, n, e);
      PairOnce(leaf, e1);
      ElemsStep(ir, n - i, e.rest);
      var b := Blind(ir, e.rest);
      if b.Ok? {
        PairRuns(ir, i + 1, n, e1.(member := MapV(e.member.keys + [e.keys[i]], e.member.items + [b.val]), rest := b.rest));
        var t := BlindElems(ir, n - i - 1, b.rest);
        if t.Ok? {
          assert e.member.items + ([b.val] + t.val) == e.member.items + [b.val] + t.val;
          assert e.member.keys + e.keys[i..] == e.member.keys + [e.keys[i]] + e.keys[i + 1..];
        }
      }
    }
  }

  lemma {:induction false} ElemsCount(ir: Ir, n: nat, s: bytes)
    ensures BlindElems(ir, n, s).Ok? ==> |BlindElems(ir, n, s).val| == n
    decreases n
  {
    hide Blind;
    if n > 0 {
      var b := Blind(ir, s);
      if b.Ok? { ElemsCount(ir, n - 1, b.rest); }
    }
  }

  lemma {:induction false} MapOpened(key: Leaf, value: Leaf, e: Env)
    ensures var keys, pairs := Loop(OverMap, [Run(PushKey(key))]), Loop(OverMap, [Run(PushPair(value))]);
            ExecAll(ReadMap(key, value), e)
            == match ReadMapCount(e.rest)
               case Err => Fault
               case Ok(n, r) =>
                 ExecAll([keys] + ([Run(ValueBits)] + [Run(Clear(true)), pairs]), e.(count := n, rest := r, keys := []))
  {
    var keys, pairs := Loop(OverMap, [Run(PushKey(key))]), Loop(OverMap, [Run(PushPair(value))]);
    var tail := [keys] + ([Run(ValueBits)] + [Run(Clear(true)), pairs]);
    var body := [Run(MapCount)] + ([Run(NewKeys)] + tail);
    assert body == [Run(MapCount), Run(NewKeys), keys, Run(ValueBits), Run(Clear(true)), pairs];
    Single(Block(body), e);
    hide ExecLoop, ExecAll, Read, ReadMapCount;
    Chain(Run(MapCount), [Run(NewKeys)] + tail, e);
    var c := ReadMapCount(e.rest);
    if c.Ok? { Chain(Run(NewKeys), tail, e.(count := c.val, rest := c.rest)); }
  }

  lemma {:induction false} MapRuns(ir: Ir, e: Env)
    requires ir.node.MapN? && Supported(ir)
    ensures Agrees(ExecAll(ReadMap(LeafOf(ir.node.key), LeafOf(ir.node.value)), e), Blind(ir, e.rest))
    decreases ir, 1, 0
  {
    MapOpened(LeafOf(ir.node.key), LeafOf(ir.node.value), e);
    hide LeafOf, ExecLoop, BlindElems, ExecAll, ReadMap;
    var c := ReadMapCount(e.rest);
    if c.Ok? { KeysRun(ir, e.(count := c.val, rest := c.rest, keys := [])); }
  }

  /** The first half of a map, after its count: the keys. */
  lemma {:induction false} KeysRun(ir: Ir, e: Env)
    requires ir.node.MapN? && Supported(ir) && e.keys == []
    ensures var keys, pairs := Loop(OverMap, [Run(PushKey(LeafOf(ir.node.key)))]), Loop(OverMap, [Run(PushPair(LeafOf(ir.node.value)))]);
            Agrees(ExecAll([keys] + ([Run(ValueBits)] + [Run(Clear(true)), pairs]), e),
                   match BlindElems(ir.node.key, e.count, e.rest)
                   case Err => Err
                   case Ok(ks, r) =>
                     match Take(r, BitfieldBytes(e.count))
                     case Err => Err
                     case Ok(_, r') =>
                       match BlindElems(ir.node.value, e.count, r') case Err => Err case Ok(vs, r'') => Ok(MapV(ks, vs), r''))
    decreases ir, 0, 0
  {
    var key, value := LeafOf(ir.node.key), LeafOf(ir.node.value);
    var keys, pairs := Loop(OverMap, [Run(PushKey(key))]), Loop(OverMap, [Run(PushPair(value))]);
    Chain(keys, [Run(ValueBits)] + [Run(Clear(true)), pairs], e);
    hide LeafOf, ExecLoop, BlindElems, ExecAll, ExecPrim;
    KeyRuns(ir.node.key, 0, e.count, e);
    var ks := BlindElems(ir.node.key, e.count, e.rest);
    if ks.Ok? {
      ElemsCount(ir.node.key, e.count, e.rest);
      assert [] + ks.val == ks.val;
      ValuesRun(ir.node.value, e.count, Exec(keys, e).env);
    }
  }

  /** The second half of a map: the value bitfield is skipped, then the pairs are built. */
  lemma {:induction false} ValuesRun(ir: Ir, n: nat, e: Env)
    requires IsLeaf(ir) && Supported(ir) && |e.keys| == n == e.count
    ensures var pairs := Loop(OverMap, [Run(PushPair(LeafOf(ir)))]);
            Agrees(ExecAll([Run(ValueBits)] + [Run(Clear(true)), pairs], e),
                   match Take(e.rest, BitfieldBytes(n))
                   case Err => Err
                   case Ok(_, r) => match BlindElems(ir, n, r) case Err => Err case Ok(vs, r') => Ok(MapV(e.keys, vs), r'))
    decreases ir, 2, 0
  {
    var pairs := Loop(OverMap, [Run(PushPair(LeafOf(ir)))]);
    Chain(Run(ValueBits), [Run(Clear(true)), pairs], e);
    var t := Take(e.rest, BitfieldBytes(n));
    if t.Ok? {
      var e1 := e.(rest := t.rest);
      Two(Run(Clear(true)), pairs, e1);
      var e2 := e1.(member := MapV([], []));
      PairRuns(ir, 0, n, e2);
      hide LeafOf, ExecLoop, BlindElems, Read, ExecAll;
      assert [] + e.keys[0..] == e.keys;
      var b := BlindElems(ir, n, t.rest);
      if b.Ok? { assert [] + b.val == b.val; }
    }
  }
}
