/** What appending to a tree of Arrow builders does, as functions on the buffers, and the proof that
    it keeps the layout, keeps every earlier slot and puts the appended value in the new one.

    `AppendNulls` and `AppendEmpties` follow Arrow's builders: a null struct or fixed-size list gives
    its children empty values, a null union goes to its first arm, and a dense union stores one
    shared child value for a whole run. */
module Builders {
  import opened Wire
  import opened RowTypes
  import opened RowReader
  import opened Columns

  function Rep<T>(n: nat, x: T): (s: seq<T>)
    ensures |s| == n
  {
    seq(n, _ => x)
  }

  function ZeroRaw(n: nat): bytes { seq(n, _ => 0) }

  /** `n` null slots: `ArrayBuilder::AppendNulls`. */
  function AppendNulls(b: Buf, n: nat): Buf
    decreases b
  {
    match b
    case BoolBuf(valid, bits) => BoolBuf(valid + Rep(n, false), bits + Rep(n, false))
    case FixedBuf(valid, w, raw) => FixedBuf(valid + Rep(n, false), w, raw + ZeroRaw(n * w))
    case VarBuf(valid, starts, data) => VarBuf(valid + Rep(n, false), starts + Rep(n, |data|), data)
    case StructBuf(valid, kids) => StructBuf(valid + Rep(n, false), EmptyKids(kids, n))
    case ListBuf(valid, starts, kid) => ListBuf(valid + Rep(n, false), starts + Rep(n, kid.len), kid)
    case FslBuf(valid, size, kid) =>
      FslBuf(valid + Rep(n, false), size, Whole(AppendEmpties(kid.buf, n * size)))
    case MapBuf(valid, starts, keys, items) =>
      MapBuf(valid + Rep(n, false), starts + Rep(n, items.len), keys, items)
    case UnionBuf(dense, codes, ids, places, kids) =>
      if codes == [] || kids == [] then b
      else if dense then
        UnionBuf(dense, codes, ids + Rep(n, codes[0]), places + Rep(n, kids[0].len),
                 kids[0 := Whole(AppendNulls(kids[0].buf, 1))])
      else
        UnionBuf(dense, codes, ids + Rep(n, codes[0]), places,
                 [Whole(AppendNulls(kids[0].buf, n))] + EmptyKids(kids[1..], n))
  }

  /** `n` non-null slots of no particular value: `ArrayBuilder::AppendEmptyValues`. */
  function AppendEmpties(b: Buf, n: nat): Buf
    decreases b
  {
    match b
    case BoolBuf(valid, bits) => BoolBuf(valid + Rep(n, true), bits + Rep(n, false))
    case FixedBuf(valid, w, raw) => FixedBuf(valid + Rep(n, true), w, raw + ZeroRaw(n * w))
    case VarBuf(valid, starts, data) => VarBuf(valid + Rep(n, true), starts + Rep(n, |data|), data)
    case StructBuf(valid, kids) => StructBuf(valid + Rep(n, true), EmptyKids(kids, n))
    case ListBuf(valid, starts, kid) => ListBuf(valid + Rep(n, true), starts + Rep(n, kid.len), kid)
    case FslBuf(valid, size, kid) =>
      FslBuf(valid + Rep(n, true), size, Whole(AppendEmpties(kid.buf, n * size)))
    case MapBuf(valid, starts, keys, items) =>
      MapBuf(valid + Rep(n, true), starts + Rep(n, items.len), keys, items)
    case UnionBuf(dense, codes, ids, places, kids) =>
      if codes == [] || kids == [] then b
      else if dense then
        UnionBuf(dense, codes, ids + Rep(n, codes[0]), places + Rep(n, kids[0].len),
                 kids[0 := Whole(AppendEmpties(kids[0].buf, 1))])
      else
        UnionBuf(dense, codes, ids + Rep(n, codes[0]), places, EmptyKids(kids, n))
  }

  function EmptyKids(kids: seq<Arr>, n: nat): (r: seq<Arr>)
    ensures |r| == |kids|
    decreases kids, 0
  {
    seq(|kids|, k requires 0 <= k < |kids| => EmptyKid(kids[k], n))
  }

  function EmptyKid(kid: Arr, n: nat): Arr
    decreases kid, 0
  {
    Whole(AppendEmpties(kid.buf, n))
  }

  // ----- appending decoded values -----

  function AppendSlot(b: Buf, v: Value): Buf
    decreases v, 1
  {
    if v == Null then AppendNulls(b, 1) else AppendValue(b, v)
  }

  /** One non-null value. */
  function AppendValue(b: Buf, v: Value): Buf
    decreases v, 0
  {
    match (b, v)
    case (BoolBuf(valid, bits), BoolV(x)) => BoolBuf(valid + [true], bits + [x])
    case (FixedBuf(valid, w, raw), FixedV(x)) => FixedBuf(valid + [true], w, raw + x)
    case (VarBuf(valid, starts, data), VarV(x)) => VarBuf(valid + [true], starts + [|data|], data + x)
    case (StructBuf(valid, kids), StructV(vs)) => StructBuf(valid + [true], AppendFields(kids, vs))
    case (ListBuf(valid, starts, kid), ListV(vs)) =>
      ListBuf(valid + [true], starts + [kid.len], Whole(AppendList(kid.buf, vs)))
    case (FslBuf(valid, size, kid), ListV(vs)) =>
      FslBuf(valid + [true], size, Whole(AppendList(kid.buf, vs)))
    case (MapBuf(valid, starts, keys, items), MapV(ks, vs)) =>
      MapBuf(valid + [true], starts + [items.len],
             Whole(AppendElems(keys.buf, ks)), Whole(AppendElems(items.buf, vs)))
    case (UnionBuf(dense, codes, ids, places, kids), UnionV(code, x)) =>
      var arm := ChildId(codes, code);
      if arm < 0 || arm >= |kids| then b
      else if dense then
        UnionBuf(dense, codes, ids + [code], places + [kids[arm].len],
                 kids[arm := Whole(AppendValue(kids[arm].buf, x))])
      else
        UnionBuf(dense, codes, ids + [code], places,
                 NullKids(kids)[arm := Whole(AppendValue(kids[arm].buf, x))])
    case _ => b
  }

  /** A sparse union gives each inactive arm a null. */
  function NullKids(kids: seq<Arr>): (r: seq<Arr>)
    ensures |r| == |kids|
  {
    seq(|kids|, k requires 0 <= k < |kids| => Whole(AppendNulls(kids[k].buf, 1)))
  }

  function AppendFields(kids: seq<Arr>, vs: seq<Value>): (r: seq<Arr>)
    ensures |r| == |kids|
    decreases vs, 2
  {
    if |vs| != |kids| then kids
    else seq(|kids|, k requires 0 <= k < |kids| => Whole(AppendSlot(kids[k].buf, vs[k])))
  }

  function AppendElems(b: Buf, vs: seq<Value>): Buf
    decreases vs, 2
  {
    if vs == [] then b else AppendElems(AppendSlot(b, vs[0]), vs[1..])
  }

  ghost predicate AllNulls(vs: seq<Value>) { forall i | 0 <= i < |vs| :: vs[i] == Null }

  /** The elements of one list: a run of nulls goes in with a single call. */
  function AppendList(b: Buf, vs: seq<Value>): Buf
    decreases vs, 3
  {
    if vs != [] && (forall i | 0 <= i < |vs| :: vs[i] == Null) then AppendNulls(b, |vs|)
    else AppendElems(b, vs)
  }

  // ----- what an append is -----

  ghost predicate Keeps(b: Buf, b': Buf)
  {
    forall i | 0 <= i < Slots(b) :: ValueAt(b', i) == ValueAt(b, i)
  }

  /** `b'` is a well-laid-out column that extends `b` by `n` slots and keeps the old ones. */
  ghost predicate Grown(t: Type, b: Buf, b': Buf, n: nat)
  {
    Built(t, b') && Slots(b') == Slots(b) + n && Keeps(b, b')
  }

  /** What slot `i` must hold once `vs` has been appended to `b`. */
  ghost function SlotAfter(b: Buf, vs: seq<Value>, i: nat): Value
    requires i < Slots(b) + |vs|
  {
    if i < Slots(b) then ValueAt(b, i) else vs[i - Slots(b)]
  }

  /** `b'` is a well-laid-out column holding the slots of `b` followed by exactly `vs`. */
  ghost predicate Appended(t: Type, b: Buf, b': Buf, vs: seq<Value>)
  {
    && Built(t, b') && Slots(b') == Slots(b) + |vs|
    && forall i | 0 <= i < Slots(b') :: ValueAt(b', i) == SlotAfter(b, vs, i)
  }

  lemma AppendedGrows(t: Type, b: Buf, b': Buf, vs: seq<Value>)
    requires Appended(t, b, b', vs)
    ensures Grown(t, b, b', |vs|)
  {
    hide ValueAt, Built, Slots;
    forall i | 0 <= i < Slots(b)
      ensures ValueAt(b', i) == ValueAt(b, i)
    {
      assert ValueAt(b', i) == SlotAfter(b, vs, i);
    }
  }

  lemma {:induction false} GrownByOne(t: Type, b: Buf, b': Buf, v: Value)
    requires Grown(t, b, b', 1) && ValueAt(b', Slots(b)) == v
    ensures Appended(t, b, b', [v])
  {
    hide ValueAt, Built, Slots;
  }

  lemma AppendedChain(t: Type, b: Buf, m: Buf, e: Buf, vs: seq<Value>, ws: seq<Value>)
    requires Appended(t, b, m, vs) && Appended(t, m, e, ws)
    ensures Appended(t, b, e, vs + ws)
  {
    hide ValueAt, Built, Slots;
    forall i | 0 <= i < Slots(e)
      ensures ValueAt(e, i) == SlotAfter(b, vs + ws, i)
    {
      assert ValueAt(e, i) == SlotAfter(m, ws, i);
      if i < Slots(m) { assert ValueAt(m, i) == SlotAfter(b, vs, i); }
    }
  }

  // ----- one layer of the tree at a time -----

  lemma StartsGrow(starts: seq<nat>, slots: nat, total: nat, n: nat, total': nat)
    requires StartsOk(starts, slots, total) && total <= total' && (n > 0 || total == total')
    ensures StartsOk(starts + Rep(n, total), slots + n, total')
    ensures forall i | 0 <= i < slots ::
              && Nth(starts + Rep(n, total), i, 0) == starts[i]
              && SlotEnd(starts + Rep(n, total), i, total') == SlotEnd(starts, i, total)
  {
  }

  lemma {:induction false} AtWhole(b: Buf, i: nat)
    ensures At(Whole(b), i) == ValueAt(b, i)
  {
    assert Whole(b).off + i == i;
  }

  lemma {:induction false} KeptWindow(t: Type, kid: Arr, kid': Arr, n: nat, a: nat, z: nat)
    requires KidBuilt(t, kid) && kid' == Whole(kid'.buf) && Grown(t, kid.buf, kid'.buf, n) && a <= z <= kid.len
    ensures Window(kid', a, z) == Window(kid, a, z)
  {
    hide ValueAt, Built, Window, At;
    WindowAt(kid, a, z);
    WindowAt(kid', a, z);
    forall j | 0 <= j < z - a
      ensures Window(kid', a, z)[j] == Window(kid, a, z)[j]
    {
      AtWhole(kid'.buf, a + j);
      AtWhole(kid.buf, a + j);
    }
  }

  lemma {:induction false} NewSlot(t: Type, kid: Arr, kid': Arr, vs: seq<Value>, j: nat)
    requires KidBuilt(t, kid) && kid' == Whole(kid'.buf) && Appended(t, kid.buf, kid'.buf, vs) && j < |vs|
    ensures At(kid', kid.len + j) == vs[j]
  {
    hide ValueAt, Built, At, Slots;
    var i := kid.len + j;
    AtWhole(kid'.buf, i);
    assert i - Slots(kid.buf) == j;
    assert ValueAt(kid'.buf, i) == SlotAfter(kid.buf, vs, i) == vs[j];
  }

  lemma {:induction false} NewWindow(t: Type, kid: Arr, kid': Arr, vs: seq<Value>)
    requires KidBuilt(t, kid) && kid' == Whole(kid'.buf) && Appended(t, kid.buf, kid'.buf, vs)
    ensures Window(kid', kid.len, kid.len + |vs|) == vs
  {
    hide *;
    var z := kid.len + |vs|;
    WindowAt(kid', kid.len, z);
    forall j | 0 <= j < |vs|
      ensures Window(kid', kid.len, z)[j] == vs[j]
    {
      NewSlot(t, kid, kid', vs, j);
    }
  }

  function Bools(xs: seq<bool>): seq<Value> { seq(|xs|, j requires 0 <= j < |xs| => BoolV(xs[j])) }

  lemma {:induction false} BoolGrows(b: Buf, xs: seq<bool>, x: bool)
    requires Built(Bool, b)
    ensures Appended(Bool, b, BoolBuf(b.valid + Rep(|xs|, x), b.bits + xs),
                     if x then Bools(xs) else Rep(|xs|, Null))
  {
  }

  lemma Lanes(i: nat, n: nat, w: nat)
    requires i < n
    ensures 0 <= i * w <= i * w + w <= n * w
  {
    assert (i + 1) * w <= n * w;
  }

  function Lane(raw: bytes, w: nat, j: nat): Value { FixedV(Slice(raw, j * w, j * w + w)) }

  function LanesOf(raw: bytes, w: nat, n: nat): seq<Value> { seq(n, j requires 0 <= j < n => Lane(raw, w, j)) }

  lemma LanesCount(raw: bytes, w: nat, n: nat)
    ensures |LanesOf(raw, w, n)| == n
  {
  }

  lemma LaneKept(raw: bytes, more: bytes, w: nat, m: nat, i: nat)
    requires |raw| == m * w && i < m
    ensures Lane(raw + more, w, i) == Lane(raw, w, i)
  {
    Lanes(i, m, w);
    assert (raw + more)[i * w..i * w + w] == raw[i * w..i * w + w];
  }

  lemma LaneNew(raw: bytes, more: bytes, w: nat, m: nat, n: nat, j: nat)
    requires |raw| == m * w && |more| == n * w && j < n
    ensures Lane(raw + more, w, m + j) == Lane(more, w, j)
  {
    Lanes(j, n, w);
    assert (m + j) * w == m * w + j * w;
    assert (raw + more)[m * w + j * w..m * w + j * w + w] == more[j * w..j * w + w];
  }

  lemma {:induction false} FixedSlot(w: nat, b: Buf, n: nat, x: bool, more: bytes, vs: seq<Value>, i: nat)
    requires Built(Fixed(w), b) && |more| == n * w && i < |b.valid| + n
    requires |vs| == n && vs == if x then LanesOf(more, w, n) else Rep(n, Null)
    ensures ValueAt(FixedBuf(b.valid + Rep(n, x), w, b.raw + more), i) == SlotAfter(b, vs, i)
  {
    hide Lane, ValueAt, LanesOf;
    FixedAt(b, i);
    FixedAt(FixedBuf(b.valid + Rep(n, x), w, b.raw + more), i);
    if i < |b.valid| {
      LaneKept(b.raw, more, w, |b.valid|, i);
    } else {
      LaneNew(b.raw, more, w, |b.valid|, n, i - |b.valid|);
      LaneIs(more, w, n, i - |b.valid|);
    }
  }

  lemma {:induction false} FixedIsBuilt(w: nat, b: Buf, n: nat, x: bool, more: bytes)
    requires Built(Fixed(w), b) && |more| == n * w
    ensures b.FixedBuf? && Built(Fixed(w), FixedBuf(b.valid + Rep(n, x), w, b.raw + more))
  {
    assert (|b.valid| + n) * w == |b.valid| * w + n * w;
  }

  lemma {:induction false} FixedGrows(w: nat, b: Buf, n: nat, x: bool, more: bytes)
    requires Built(Fixed(w), b) && |more| == n * w
    ensures b.FixedBuf?
    ensures Appended(Fixed(w), b, FixedBuf(b.valid + Rep(n, x), w, b.raw + more),
                     if x then LanesOf(more, w, n) else Rep(n, Null))
  {
    hide Built, ValueAt, LanesOf, SlotAfter;
    LanesCount(more, w, n);
    FixedIsBuilt(w, b, n, x, more);
    var b' := FixedBuf(b.valid + Rep(n, x), w, b.raw + more);
    var vs := if x then LanesOf(more, w, n) else Rep(n, Null);
    forall i | 0 <= i < Slots(b')
      ensures ValueAt(b', i) == SlotAfter(b, vs, i)
    {
      FixedSlot(w, b, n, x, more, vs, i);
    }
  }

  lemma LaneIs(raw: bytes, w: nat, n: nat, j: nat)
    requires j < n
    ensures |LanesOf(raw, w, n)| == n && LanesOf(raw, w, n)[j] == Lane(raw, w, j)
  {
  }

  lemma {:induction false} FixedAt(b: Buf, i: nat)
    requires b.FixedBuf?
    ensures ValueAt(b, i) == if Nth(b.valid, i, false) then Lane(b.raw, b.width, i) else Null
  {
  }

  lemma {:induction false} VarAt(b: Buf, i: nat)
    requires b.VarBuf? && i < |b.valid| == |b.starts|
    ensures ValueAt(b, i)
         == if b.valid[i] then VarV(Slice(b.data, b.starts[i], SlotEnd(b.starts, i, |b.data|))) else Null
  {
  }

  lemma {:induction false} VarGrows(bud: bool, b: Buf, n: nat, x: bool)
    requires Built(VarLen(bud), b)
    ensures Appended(VarLen(bud), b, VarBuf(b.valid + Rep(n, x), b.starts + Rep(n, |b.data|), b.data),
                     Rep(n, if x then VarV([]) else Null))
  {
    hide ValueAt;
    var b' := VarBuf(b.valid + Rep(n, x), b.starts + Rep(n, |b.data|), b.data);
    StartsGrow(b.starts, |b.valid|, |b.data|, n, |b.data|);
    forall i | 0 <= i < Slots(b')
      ensures ValueAt(b', i) == SlotAfter(b, Rep(n, if x then VarV([]) else Null), i)
    {
      VarAt(b', i);
      if i < |b.valid| { VarAt(b, i); }
    }
  }

  lemma {:induction false} VarAppends(bud: bool, b: Buf, more: bytes)
    requires Built(VarLen(bud), b)
    ensures Appended(VarLen(bud), b, VarBuf(b.valid + [true], b.starts + [|b.data|], b.data + more), [VarV(more)])
  {
    hide ValueAt;
    var b' := VarBuf(b.valid + [true], b.starts + [|b.data|], b.data + more);
    assert Rep(1, |b.data|) == [|b.data|];
    StartsGrow(b.starts, |b.valid|, |b.data|, 1, |b.data + more|);
    forall i | 0 <= i < Slots(b')
      ensures ValueAt(b', i) == SlotAfter(b, [VarV(more)], i)
    {
      VarAt(b', i);
      if i < |b.valid| {
        VarAt(b, i);
        var a, z := b.starts[i], SlotEnd(b.starts, i, |b.data|);
        assert (b.data + more)[a..z] == b.data[a..z];
      } else {
        assert (b.data + more)[|b.data|..|b.data + more|] == more;
      }
    }
  }

  ghost predicate KidsGrown(ts: seq<Type>, kids: seq<Arr>, kids': seq<Arr>, n: nat)
  {
    && |ts| == |kids| == |kids'|
    && forall k | 0 <= k < |ts| ::
         KidBuilt(ts[k], kids[k]) && kids'[k] == Whole(kids'[k].buf) && Grown(ts[k], kids[k].buf, kids'[k].buf, n)
  }

  function Across(kids: seq<Arr>, i: nat): seq<Value>
  {
    seq(|kids|, k requires 0 <= k < |kids| => At(kids[k], i))
  }

  lemma {:induction false} StructAt(b: Buf, i: nat)
    requires b.StructBuf?
    ensures ValueAt(b, i) == if Nth(b.valid, i, false) then StructV(Across(b.kids, i)) else Null
  {
  }

  /** A struct grows when all its children grow alike; its new slots are null when `x` is false. */
  lemma {:induction false} StructGrows(ts: seq<Type>, b: Buf, kids': seq<Arr>, n: nat, x: bool)
    requires Built(Struct(ts), b) && KidsGrown(ts, b.kids, kids', n)
    ensures var b' := StructBuf(b.valid + Rep(n, x), kids');
            Grown(Struct(ts), b, b', n) && (!x ==> Appended(Struct(ts), b, b', Rep(n, Null)))
  {
    hide ValueAt;
    var b' := StructBuf(b.valid + Rep(n, x), kids');
    forall i | 0 <= i < Slots(b')
      ensures i < Slots(b) ==> ValueAt(b', i) == ValueAt(b, i)
      ensures i >= Slots(b) && !x ==> ValueAt(b', i) == Null
    {
      StructAt(b, i);
      StructAt(b', i);
      if i < Slots(b) {
        forall k | 0 <= k < |ts|
          ensures At(kids'[k], i) == At(b.kids[k], i)
        {
          assert ValueAt(kids'[k].buf, i) == ValueAt(b.kids[k].buf, i);
        }
        assert Across(kids', i) == Across(b.kids, i);
      }
    }
    assert Built(Struct(ts), b') by {
      forall k | 0 <= k < |ts|
        ensures KidBuilt(ts[k], kids'[k]) && kids'[k].len == |b'.valid|
      {
      }
    }
  }

  lemma {:induction false} StructAppends(ts: seq<Type>, b: Buf, kids': seq<Arr>, vs: seq<Value>)
    requires Built(Struct(ts), b) && |vs| == |ts| && KidsGrown(ts, b.kids, kids', 1)
    requires forall k | 0 <= k < |ts| :: Appended(ts[k], b.kids[k].buf, kids'[k].buf, [vs[k]])
    ensures Appended(Struct(ts), b, StructBuf(b.valid + [true], kids'), [StructV(vs)])
  {
    hide ValueAt, At, Grown, Appended;
    assert Rep(1, true) == [true];
    StructGrows(ts, b, kids', 1, true);
    StructAt(StructBuf(b.valid + [true], kids'), |b.valid|);
    FieldsAcross(ts, b.kids, kids', vs, |b.valid|);
    GrownByOne(Struct(ts), b, StructBuf(b.valid + [true], kids'), StructV(vs));
  }

  lemma FieldsAcross(ts: seq<Type>, kids: seq<Arr>, kids': seq<Arr>, vs: seq<Value>, m: nat)
    requires |vs| == |ts| && KidsGrown(ts, kids, kids', 1)
    requires forall k | 0 <= k < |ts| :: kids[k].len == m && Appended(ts[k], kids[k].buf, kids'[k].buf, [vs[k]])
    ensures Across(kids', m) == vs
  {
    hide ValueAt, At, Grown, Appended, Built;
    forall k | 0 <= k < |ts|
      ensures At(kids'[k], m) == vs[k]
    {
      NewSlot(ts[k], kids[k], kids'[k], [vs[k]], 0);
    }
  }

  lemma {:induction false} ListAt(b: Buf, i: nat)
    requires b.ListBuf? && i < |b.valid| == |b.starts|
    ensures ValueAt(b, i)
         == if b.valid[i] then ListV(Window(b.kid, b.starts[i], SlotEnd(b.starts, i, b.kid.len))) else Null
  {
  }

  /** A list column takes a slot whose elements are whatever its child gains. */
  lemma {:induction false} ListAppends(large: bool, e: Type, b: Buf, kid': Arr, vs: seq<Value>)
    requires Built(List(large, e), b) && kid' == Whole(kid'.buf) && Appended(e, b.kid.buf, kid'.buf, vs)
    ensures Appended(List(large, e), b, ListBuf(b.valid + [true], b.starts + [b.kid.len], kid'), [ListV(vs)])
  {
    hide ValueAt;
    var b' := ListBuf(b.valid + [true], b.starts + [b.kid.len], kid');
    assert Rep(1, b.kid.len) == [b.kid.len];
    StartsGrow(b.starts, |b.valid|, b.kid.len, 1, kid'.len);
    AppendedGrows(e, b.kid.buf, kid'.buf, vs);
    NewWindow(e, b.kid, kid', vs);
    forall i | 0 <= i < Slots(b')
      ensures ValueAt(b', i) == SlotAfter(b, [ListV(vs)], i)
    {
      ListAt(b', i);
      if i < |b.valid| {
        ListAt(b, i);
        KeptWindow(e, b.kid, kid', |vs|, b.starts[i], SlotEnd(b.starts, i, b.kid.len));
      }
    }
    assert KidBuilt(e, kid');
  }

  lemma {:induction false} ListGrows(large: bool, e: Type, b: Buf, n: nat, x: bool)
    requires Built(List(large, e), b)
    ensures Appended(List(large, e), b, ListBuf(b.valid + Rep(n, x), b.starts + Rep(n, b.kid.len), b.kid),
                     Rep(n, if x then ListV([]) else Null))
  {
    hide ValueAt;
    var b' := ListBuf(b.valid + Rep(n, x), b.starts + Rep(n, b.kid.len), b.kid);
    StartsGrow(b.starts, |b.valid|, b.kid.len, n, b.kid.len);
    forall i | 0 <= i < Slots(b')
      ensures ValueAt(b', i) == SlotAfter(b, Rep(n, if x then ListV([]) else Null), i)
    {
      ListAt(b', i);
      if i < |b.valid| { ListAt(b, i); }
    }
  }

  lemma {:induction false} FslAt(b: Buf, i: nat)
    requires b.FslBuf?
    ensures ValueAt(b, i)
         == if Nth(b.valid, i, false) then ListV(Window(b.kid, i * b.size, i * b.size + b.size)) else Null
  {
  }

  lemma {:induction false} FslGrows(size: nat, e: Type, b: Buf, kid': Arr, n: nat, x: bool)
    requires Built(FixedSizeList(size, e), b) && kid' == Whole(kid'.buf)
    requires Grown(e, b.kid.buf, kid'.buf, n * size)
    ensures var t, b' := FixedSizeList(size, e), FslBuf(b.valid + Rep(n, x), size, kid');
            Grown(t, b, b', n) && (!x ==> Appended(t, b, b', Rep(n, Null)))
  {
    hide ValueAt;
    var b' := FslBuf(b.valid + Rep(n, x), size, kid');
    assert KidBuilt(e, kid') && kid'.len == |b'.valid| * size by {
      assert (|b.valid| + n) * size == |b.valid| * size + n * size;
    }
    forall i | 0 <= i < Slots(b')
      ensures i < Slots(b) ==> ValueAt(b', i) == ValueAt(b, i)
      ensures i >= Slots(b) && !x ==> ValueAt(b', i) == Null
    {
      if i < Slots(b) {
        FslKeeps(size, e, b, kid', n, x, i);
      } else {
        FslAt(b', i);
      }
    }
  }

  lemma {:induction false} FslKeeps(size: nat, e: Type, b: Buf, kid': Arr, n: nat, x: bool, i: nat)
    requires Built(FixedSizeList(size, e), b) && kid' == Whole(kid'.buf)
    requires Grown(e, b.kid.buf, kid'.buf, n * size) && i < |b.valid|
    ensures ValueAt(FslBuf(b.valid + Rep(n, x), size, kid'), i) == ValueAt(b, i)
  {
    hide ValueAt, Grown;
    FslAt(b, i);
    FslAt(FslBuf(b.valid + Rep(n, x), size, kid'), i);
    Lanes(i, |b.valid|, size);
    KeptWindow(e, b.kid, kid', n * size, i * size, i * size + size);
  }

  lemma {:induction false} FslAppends(size: nat, e: Type, b: Buf, kid': Arr, vs: seq<Value>)
    requires Built(FixedSizeList(size, e), b) && kid' == Whole(kid'.buf)
    requires |vs| == size && Appended(e, b.kid.buf, kid'.buf, vs)
    ensures Appended(FixedSizeList(size, e), b, FslBuf(b.valid + [true], size, kid'), [ListV(vs)])
  {
    hide ValueAt;
    assert Rep(1, true) == [true];
    AppendedGrows(e, b.kid.buf, kid'.buf, vs);
    FslGrows(size, e, b, kid', 1, true);
    FslAt(FslBuf(b.valid + [true], size, kid'), |b.valid|);
    NewWindow(e, b.kid, kid', vs);
  }

  lemma {:induction false} MapAt(b: Buf, i: nat)
    requires b.MapBuf? && i < |b.valid| == |b.starts|
    ensures var a, z := b.starts[i], SlotEnd(b.starts, i, b.items.len);
            ValueAt(b, i) == if b.valid[i] then MapV(Window(b.keys, a, z), Window(b.items, a, z)) else Null
  {
  }

  lemma {:induction false} MapAppends(k: Type, e: Type, b: Buf, keys': Arr, items': Arr, ks: seq<Value>, vs: seq<Value>)
    requires Built(Map(k, e), b) && keys' == Whole(keys'.buf) && items' == Whole(items'.buf) && |ks| == |vs|
    requires Appended(k, b.keys.buf, keys'.buf, ks) && Appended(e, b.items.buf, items'.buf, vs)
    ensures Appended(Map(k, e), b, MapBuf(b.valid + [true], b.starts + [b.items.len], keys', items'), [MapV(ks, vs)])
  {
    hide ValueAt;
    var b' := MapBuf(b.valid + [true], b.starts + [b.items.len], keys', items');
    assert Rep(1, b.items.len) == [b.items.len];
    StartsGrow(b.starts, |b.valid|, b.items.len, 1, items'.len);
    forall i | 0 <= i < Slots(b')
      ensures ValueAt(b', i) == SlotAfter(b, [MapV(ks, vs)], i)
    {
      MapSlotAfter(k, e, b, keys', items', ks, vs, i);
    }
    assert KidBuilt(k, keys') && KidBuilt(e, items');
  }

  lemma {:induction false} MapSlotAfter(k: Type, e: Type, b: Buf, keys': Arr, items': Arr, ks: seq<Value>, vs: seq<Value>, i: nat)
    requires Built(Map(k, e), b) && keys' == Whole(keys'.buf) && items' == Whole(items'.buf) && |ks| == |vs| && i <= |b.valid|
    requires Appended(k, b.keys.buf, keys'.buf, ks) && Appended(e, b.items.buf, items'.buf, vs)
    ensures ValueAt(MapBuf(b.valid + [true], b.starts + [b.items.len], keys', items'), i) == SlotAfter(b, [MapV(ks, vs)], i)
  {
    hide ValueAt;
    AppendedGrows(k, b.keys.buf, keys'.buf, ks);
    AppendedGrows(e, b.items.buf, items'.buf, vs);
    MapAt(MapBuf(b.valid + [true], b.starts + [b.items.len], keys', items'), i);
    if i < |b.valid| {
      MapAt(b, i);
      KeptWindow(k, b.keys, keys', |ks|, b.starts[i], SlotEnd(b.starts, i, b.items.len));
      KeptWindow(e, b.items, items', |vs|, b.starts[i], SlotEnd(b.starts, i, b.items.len));
    } else {
      NewWindow(k, b.keys, keys', ks);
      NewWindow(e, b.items, items', vs);
    }
  }

  lemma {:induction false} MapGrows(k: Type, e: Type, b: Buf, n: nat, x: bool)
    requires Built(Map(k, e), b)
    ensures Appended(Map(k, e), b, MapBuf(b.valid + Rep(n, x), b.starts + Rep(n, b.items.len), b.keys, b.items),
                     Rep(n, if x then MapV([], []) else Null))
  {
    hide ValueAt;
    var b' := MapBuf(b.valid + Rep(n, x), b.starts + Rep(n, b.items.len), b.keys, b.items);
    StartsGrow(b.starts, |b.valid|, b.items.len, n, b.items.len);
    forall i | 0 <= i < Slots(b')
      ensures ValueAt(b', i) == SlotAfter(b, Rep(n, if x then MapV([], []) else Null), i)
    {
      MapAt(b', i);
      if i < |b.valid| { MapAt(b, i); }
    }
  }

  // ----- unions -----

  function Lift(code: nat, v: Value): Value { if v == Null then Null else UnionV(code, v) }

  lemma {:induction false} UnionAt(b: Buf, i: nat)
    requires b.UnionBuf? && i < |b.ids| && 0 <= ChildId(b.codes, b.ids[i]) < |b.kids|
    ensures ValueAt(b, i)
         == Lift(b.ids[i], At(b.kids[ChildId(b.codes, b.ids[i])], if b.dense then Nth(b.places, i, 0) else i))
  {
  }

  ghost predicate CodesKnown(codes: seq<nat>, arms: seq<Type>, ids: seq<nat>)
  {
    forall j | 0 <= j < |ids| :: 0 <= ChildId(codes, ids[j]) < |arms|
  }

  /** The arms may gain different numbers of slots, as in a dense union. */
  ghost predicate ArmsGrown(ts: seq<Type>, kids: seq<Arr>, kids': seq<Arr>)
  {
    && |ts| == |kids| == |kids'|
    && forall k | 0 <= k < |ts| ::
         && KidBuilt(ts[k], kids[k]) && kids'[k] == Whole(kids'[k].buf) && kids[k].len <= kids'[k].len
         && Grown(ts[k], kids[k].buf, kids'[k].buf, kids'[k].len - kids[k].len)
  }

  lemma {:induction false} KeptSlot(t: Type, kid: Arr, kid': Arr, n: nat, i: nat)
    requires KidBuilt(t, kid) && kid' == Whole(kid'.buf) && Grown(t, kid.buf, kid'.buf, n) && i < kid.len
    ensures At(kid', i) == At(kid, i)
  {
    hide ValueAt, Built, At;
    AtWhole(kid.buf, i);
    AtWhole(kid'.buf, i);
  }

  /** A sparse union grows with all its arms; a new slot shows its own arm. */
  lemma {:induction false} SparseGrows(codes: seq<nat>, arms: seq<Type>, b: Buf, kids': seq<Arr>, more: seq<nat>)
    requires Built(Union(false, codes, arms), b)
    requires KidsGrown(arms, b.kids, kids', |more|) && CodesKnown(codes, arms, more)
    ensures var b' := UnionBuf(false, codes, b.ids + more, [], kids');
            && Grown(Union(false, codes, arms), b, b', |more|)
            && forall i | |b.ids| <= i < |b.ids| + |more| ::
                 ValueAt(b', i) == Lift(b'.ids[i], At(kids'[ChildId(codes, b'.ids[i])], i))
  {
    hide ValueAt, At;
    var b' := UnionBuf(false, codes, b.ids + more, [], kids');
    forall i | 0 <= i < Slots(b')
      ensures i < Slots(b) ==> ValueAt(b', i) == ValueAt(b, i)
      ensures i >= Slots(b) ==> ValueAt(b', i) == Lift(b'.ids[i], At(kids'[ChildId(codes, b'.ids[i])], i))
    {
      UnionAt(b', i);
      if i < Slots(b) {
        UnionAt(b, i);
        var k := ChildId(codes, b.ids[i]);
        KeptSlot(arms[k], b.kids[k], kids'[k], |more|, i);
      }
    }
    assert Built(Union(false, codes, arms), b') by {
      hide Keeps;
      forall k | 0 <= k < |arms|
        ensures KidBuilt(arms[k], kids'[k]) && kids'[k].len == |b'.ids|
      {
      }
    }
  }

  lemma {:induction false} DenseIsBuilt(codes: seq<nat>, arms: seq<Type>, b: Buf, kids': seq<Arr>, more: seq<nat>, ps: seq<nat>)
    requires Built(Union(true, codes, arms), b)
    requires ArmsGrown(arms, b.kids, kids') && CodesKnown(codes, arms, more) && |ps| == |more|
    requires forall j | 0 <= j < |more| :: ps[j] < kids'[ChildId(codes, more[j])].len
    ensures Built(Union(true, codes, arms), UnionBuf(true, codes, b.ids + more, b.places + ps, kids'))
  {
    hide ValueAt, Keeps;
    forall k | 0 <= k < |arms|
      ensures KidBuilt(arms[k], kids'[k])
    {
    }
  }

  lemma {:induction false} DenseSlot(codes: seq<nat>, arms: seq<Type>, b: Buf, kids': seq<Arr>, more: seq<nat>, ps: seq<nat>, i: nat)
    requires Built(Union(true, codes, arms), b) && ArmsGrown(arms, b.kids, kids') && i < Slots(b)
    ensures ValueAt(UnionBuf(true, codes, b.ids + more, b.places + ps, kids'), i) == ValueAt(b, i)
  {
    hide ValueAt, At;
    UnionAt(UnionBuf(true, codes, b.ids + more, b.places + ps, kids'), i);
    UnionAt(b, i);
    var k := ChildId(codes, b.ids[i]);
    KeptSlot(arms[k], b.kids[k], kids'[k], kids'[k].len - b.kids[k].len, b.places[i]);
  }

  /** A dense union grows by slots that point into arms which only ever grow. */
  lemma {:induction false} DenseGrows(codes: seq<nat>, arms: seq<Type>, b: Buf, kids': seq<Arr>, more: seq<nat>, ps: seq<nat>)
    requires Built(Union(true, codes, arms), b)
    requires ArmsGrown(arms, b.kids, kids') && CodesKnown(codes, arms, more) && |ps| == |more|
    requires forall j | 0 <= j < |more| :: ps[j] < kids'[ChildId(codes, more[j])].len
    ensures var b' := UnionBuf(true, codes, b.ids + more, b.places + ps, kids');
            && Grown(Union(true, codes, arms), b, b', |more|)
            && forall i | |b.ids| <= i < |b.ids| + |more| ::
                 ValueAt(b', i) == Lift(b'.ids[i], At(kids'[ChildId(codes, b'.ids[i])], b'.places[i]))
  {
    hide ValueAt, At, ArmsGrown;
    var b' := UnionBuf(true, codes, b.ids + more, b.places + ps, kids');
    DenseIsBuilt(codes, arms, b, kids', more, ps);
    forall i | 0 <= i < Slots(b)
      ensures ValueAt(b', i) == ValueAt(b, i)
    {
      DenseSlot(codes, arms, b, kids', more, ps, i);
    }
    forall i | |b.ids| <= i < |b.ids| + |more|
      ensures ValueAt(b', i) == Lift(b'.ids[i], At(kids'[ChildId(codes, b'.ids[i])], b'.places[i]))
    {
      UnionAt(b', i);
    }
  }

  lemma {:induction false} ChildIdOf(codes: seq<nat>, k: nat)
    requires k < |codes|
    requires forall i, j | 0 <= i < j < |codes| :: codes[i] != codes[j]
    ensures ChildId(codes, codes[k]) == k
    decreases |codes|
  {
    if k < |codes| - 1 { ChildIdOf(codes[..|codes| - 1], k); }
  }

  lemma {:induction false} NoGrowth(t: Type, a: Arr)
    requires KidBuilt(t, a)
    ensures Grown(t, a.buf, a.buf, 0)
  {
  }

  lemma OneArmGrows(ts: seq<Type>, kids: seq<Arr>, arm: nat, active: Buf, n: nat)
    requires arm < |ts| == |kids| && forall k | 0 <= k < |ts| :: KidBuilt(ts[k], kids[k])
    requires Grown(ts[arm], kids[arm].buf, active, n)
    ensures ArmsGrown(ts, kids, kids[arm := Whole(active)])
  {
    hide ValueAt, Built;
    var kids' := kids[arm := Whole(active)];
    forall k | 0 <= k < |ts|
      ensures kids'[k] == Whole(kids'[k].buf) && kids[k].len <= kids'[k].len
      ensures Grown(ts[k], kids[k].buf, kids'[k].buf, kids'[k].len - kids[k].len)
    {
      NoGrowth(ts[k], kids[k]);
    }
  }

  // ----- nulls and empties -----

  lemma {:induction false} EmptiesGrow(t: Type, b: Buf, n: nat)
    requires TypeOk(t) && Built(t, b)
    ensures Grown(t, b, AppendEmpties(b, n), n)
    decreases t, 0
  {
    hide ValueAt;
    match t
    case Bool =>
      BoolGrows(b, Rep(n, false), true);
      AppendedGrows(t, b, AppendEmpties(b, n), Bools(Rep(n, false)));
    case Fixed(w) =>
      FixedGrows(w, b, n, true, ZeroRaw(n * w));
      AppendedGrows(t, b, AppendEmpties(b, n), LanesOf(ZeroRaw(n * w), w, n));
    case VarLen(bud) =>
      VarGrows(bud, b, n, true);
      AppendedGrows(t, b, AppendEmpties(b, n), Rep(n, VarV([])));
    case Struct(ts) =>
      KidsEmptied(ts, b.kids, n);
      StructGrows(ts, b, EmptyKids(b.kids, n), n, true);
    case List(large, e) =>
      ListGrows(large, e, b, n, true);
      AppendedGrows(t, b, AppendEmpties(b, n), Rep(n, ListV([])));
    case FixedSizeList(size, e) =>
      EmptiesGrow(e, b.kid.buf, n * size);
      FslGrows(size, e, b, Whole(AppendEmpties(b.kid.buf, n * size)), n, true);
    case Map(k, e) =>
      MapGrows(k, e, b, n, true);
      AppendedGrows(t, b, AppendEmpties(b, n), Rep(n, MapV([], [])));
    case Union(dense, codes, arms) =>
      ChildIdOf(codes, 0);
      if dense {
        EmptiesGrow(arms[0], b.kids[0].buf, 1);
        DenseShares(codes, arms, b, AppendEmpties(b.kids[0].buf, 1), n);
      } else {
        KidsEmptied(arms, b.kids, n);
        SparseGrows(codes, arms, b, EmptyKids(b.kids, n), Rep(n, codes[0]));
      }
  }

  lemma {:induction false} KidsEmptied(ts: seq<Type>, kids: seq<Arr>, n: nat)
    requires TypesOk(ts) && |kids| == |ts| && forall k | 0 <= k < |ts| :: KidBuilt(ts[k], kids[k])
    ensures KidsGrown(ts, kids, EmptyKids(kids, n), n)
    decreases ts, 0
  {
    hide ValueAt, Built, AppendEmpties;
    forall k | 0 <= k < |ts|
      ensures var kid' := EmptyKids(kids, n)[k];
              kid' == Whole(kid'.buf) && Grown(ts[k], kids[k].buf, kid'.buf, n)
    {
      EmptiesGrow(ts[k], kids[k].buf, n);
    }
  }

  /** A run of dense-union slots that all point at one new value of the first arm. */
  lemma {:induction false} DenseShares(codes: seq<nat>, arms: seq<Type>, b: Buf, first: Buf, n: nat)
    requires TypeOk(Union(true, codes, arms)) && Built(Union(true, codes, arms), b)
    requires Grown(arms[0], b.kids[0].buf, first, 1)
    ensures var b' := UnionBuf(true, codes, b.ids + Rep(n, codes[0]), b.places + Rep(n, b.kids[0].len),
                               b.kids[0 := Whole(first)]);
            && Grown(Union(true, codes, arms), b, b', n)
            && forall i | |b.ids| <= i < |b.ids| + n ::
                 ValueAt(b', i) == Lift(codes[0], At(Whole(first), b.kids[0].len))
  {
    hide ValueAt, At;
    OneArmGrows(arms, b.kids, 0, first, 1);
    ChildIdOf(codes, 0);
    DenseGrows(codes, arms, b, b.kids[0 := Whole(first)], Rep(n, codes[0]), Rep(n, b.kids[0].len));
  }

  lemma {:induction false} NullsAppended(t: Type, b: Buf, n: nat)
    requires TypeOk(t) && Built(t, b)
    ensures Appended(t, b, AppendNulls(b, n), Rep(n, Null))
    decreases t, 0
  {
    hide ValueAt;
    match t
    case Bool => BoolGrows(b, Rep(n, false), false);
    case Fixed(w) => FixedGrows(w, b, n, false, ZeroRaw(n * w));
    case VarLen(bud) => VarGrows(bud, b, n, false);
    case Struct(ts) =>
      KidsEmptied(ts, b.kids, n);
      StructGrows(ts, b, EmptyKids(b.kids, n), n, false);
    case List(large, e) => ListGrows(large, e, b, n, false);
    case FixedSizeList(size, e) =>
      EmptiesGrow(e, b.kid.buf, n * size);
      FslGrows(size, e, b, Whole(AppendEmpties(b.kid.buf, n * size)), n, false);
    case Map(k, e) => MapGrows(k, e, b, n, false);
    case Union(dense, codes, arms) =>
      if dense { DenseNulls(codes, arms, b, n); } else { SparseNulls(codes, arms, b, n); }
  }

  lemma {:induction false} DenseNulls(codes: seq<nat>, arms: seq<Type>, b: Buf, n: nat)
    requires TypeOk(Union(true, codes, arms)) && Built(Union(true, codes, arms), b)
    ensures Appended(Union(true, codes, arms), b, AppendNulls(b, n), Rep(n, Null))
    decreases arms, 1
  {
    hide ValueAt, At;
    var first := AppendNulls(b.kids[0].buf, 1);
    NullsAppended(arms[0], b.kids[0].buf, 1);
    AppendedGrows(arms[0], b.kids[0].buf, first, Rep(1, Null));
    DenseShares(codes, arms, b, first, n);
    AtWhole(first, b.kids[0].len);
    assert ValueAt(first, b.kids[0].len) == SlotAfter(b.kids[0].buf, Rep(1, Null), b.kids[0].len);
  }

  lemma {:induction false} SparseNullKids(arms: seq<Type>, kids: seq<Arr>, n: nat)
    requires arms != [] && TypesOk(arms) && |kids| == |arms| && forall k | 0 <= k < |arms| :: KidBuilt(arms[k], kids[k])
    ensures KidsGrown(arms, kids, [Whole(AppendNulls(kids[0].buf, n))] + EmptyKids(kids[1..], n), n)
    decreases arms, 1
  {
    hide ValueAt, At, Built, AppendNulls;
    var first := AppendNulls(kids[0].buf, n);
    var kids' := [Whole(first)] + EmptyKids(kids[1..], n);
    NullsAppended(arms[0], kids[0].buf, n);
    AppendedGrows(arms[0], kids[0].buf, first, Rep(n, Null));
    KidsEmptied(arms[1..], kids[1..], n);
    forall k | 0 <= k < |arms|
      ensures kids'[k] == Whole(kids'[k].buf) && Grown(arms[k], kids[k].buf, kids'[k].buf, n)
    {
      if k > 0 { assert kids'[k] == EmptyKids(kids[1..], n)[k - 1] && arms[1..][k - 1] == arms[k]; }
    }
  }

  lemma {:induction false} SparseNulls(codes: seq<nat>, arms: seq<Type>, b: Buf, n: nat)
    requires TypeOk(Union(false, codes, arms)) && Built(Union(false, codes, arms), b)
    ensures Appended(Union(false, codes, arms), b, AppendNulls(b, n), Rep(n, Null))
    decreases arms, 2
  {
    hide ValueAt, At, KidsGrown, EmptyKids;
    var first := AppendNulls(b.kids[0].buf, n);
    var kids' := [Whole(first)] + EmptyKids(b.kids[1..], n);
    SparseNullKids(arms, b.kids, n);
    NullsAppended(arms[0], b.kids[0].buf, n);
    ChildIdOf(codes, 0);
    SparseGrows(codes, arms, b, kids', Rep(n, codes[0]));
    forall i | |b.ids| <= i < |b.ids| + n
      ensures ValueAt(AppendNulls(b, n), i) == Null
    {
      AtWhole(first, i);
      assert ValueAt(first, i) == SlotAfter(b.kids[0].buf, Rep(n, Null), i);
    }
  }

  // ----- decoded values -----

  /** Appending a value keeps the layout and every earlier slot, and the new slot holds the value. */
  lemma {:induction false} ValueAppended(t: Type, b: Buf, v: Value)
    requires TypeOk(t) && Built(t, b) && HasType(t, v)
    ensures Appended(t, b, AppendValue(b, v), [v])
    decreases v, 1
  {
    hide ValueAt, At, Grown, Appended, AppendList, AppendElems, AppendFields, AppendNulls, NullKids, Rep, Bools, LanesOf;
    match t
    case Bool =>
      OneBool(v.b);
      BoolGrows(b, [v.b], true);
    case Fixed(w) =>
      OneLane(v.raw, w);
      FixedGrows(w, b, 1, true, v.raw);
    case VarLen(bud) => VarAppends(bud, b, v.data);
    case Struct(ts) =>
      FieldsAppended(ts, b.kids, v.fields);
      StructAppends(ts, b, AppendFields(b.kids, v.fields), v.fields);
    case List(large, e) =>
      ListAppended(e, b.kid.buf, v.elems);
      ListAppends(large, e, b, Whole(AppendList(b.kid.buf, v.elems)), v.elems);
    case FixedSizeList(size, e) =>
      ListAppended(e, b.kid.buf, v.elems);
      FslAppends(size, e, b, Whole(AppendList(b.kid.buf, v.elems)), v.elems);
    case Map(k, e) =>
      ElemsAppended(k, b.keys.buf, v.keys);
      ElemsAppended(e, b.items.buf, v.items);
      MapAppends(k, e, b, Whole(AppendElems(b.keys.buf, v.keys)), Whole(AppendElems(b.items.buf, v.items)),
                 v.keys, v.items);
    case Union(dense, codes, arms) => UnionAppended(dense, codes, arms, b, v);
  }

  lemma {:induction false} UnionAppended(dense: bool, codes: seq<nat>, arms: seq<Type>, b: Buf, v: Value)
    requires TypeOk(Union(dense, codes, arms)) && Built(Union(dense, codes, arms), b)
    requires HasType(Union(dense, codes, arms), v)
    ensures Appended(Union(dense, codes, arms), b, AppendValue(b, v), [v])
    decreases v, 0
  {
    hide ValueAt, At, Grown, Appended, NullKids;
    var arm := ChildId(codes, v.code);
    ValueAppended(arms[arm], b.kids[arm].buf, v.arm);
    HasTypeNotNull(arms[arm], v.arm);
    if dense {
      DenseAppends(codes, arms, b, v, AppendValue(b.kids[arm].buf, v.arm));
    } else {
      SparseAppends(codes, arms, b, v, AppendValue(b.kids[arm].buf, v.arm));
    }
  }

  lemma OneBool(x: bool)
    ensures Rep(1, true) == [true] && Bools([x]) == [BoolV(x)]
  {
  }

  lemma OneLane(raw: bytes, w: nat)
    requires |raw| == w
    ensures Rep(1, true) == [true] && LanesOf(raw, w, 1) == [FixedV(raw)]
  {
    assert 0 * w == 0 && Slice(raw, 0, w) == raw;
  }

  lemma {:induction false} HasTypeNotNull(t: Type, v: Value)
    requires HasType(t, v)
    ensures v != Null
  {
  }

  lemma {:induction false} DenseAppends(codes: seq<nat>, arms: seq<Type>, b: Buf, v: Value, active: Buf)
    requires TypeOk(Union(true, codes, arms)) && Built(Union(true, codes, arms), b)
    requires HasType(Union(true, codes, arms), v) && v.arm != Null
    requires Appended(arms[ChildId(codes, v.code)], b.kids[ChildId(codes, v.code)].buf, active, [v.arm])
    ensures var arm := ChildId(codes, v.code);
            Appended(Union(true, codes, arms), b,
                     UnionBuf(true, codes, b.ids + [v.code], b.places + [b.kids[arm].len],
                              b.kids[arm := Whole(active)]), [v])
  {
    hide ValueAt, At, Keeps, ArmsGrown;
    var arm := ChildId(codes, v.code);
    var kids' := b.kids[arm := Whole(active)];
    AppendedGrows(arms[arm], b.kids[arm].buf, active, [v.arm]);
    OneArmGrows(arms, b.kids, arm, active, 1);
    DenseGrows(codes, arms, b, kids', [v.code], [b.kids[arm].len]);
    NewSlot(arms[arm], b.kids[arm], kids'[arm], [v.arm], 0);
    GrownByOne(Union(true, codes, arms), b,
               UnionBuf(true, codes, b.ids + [v.code], b.places + [b.kids[arm].len], kids'), v);
  }

  lemma {:induction false} OtherArmsNull(ts: seq<Type>, kids: seq<Arr>, arm: nat, active: Buf)
    requires TypesOk(ts) && arm < |ts| == |kids| && forall k | 0 <= k < |ts| :: KidBuilt(ts[k], kids[k])
    requires Grown(ts[arm], kids[arm].buf, active, 1)
    ensures KidsGrown(ts, kids, NullKids(kids)[arm := Whole(active)], 1)
  {
    hide ValueAt, Built, AppendNulls;
    var kids' := NullKids(kids)[arm := Whole(active)];
    forall k | 0 <= k < |ts|
      ensures kids'[k] == Whole(kids'[k].buf) && Grown(ts[k], kids[k].buf, kids'[k].buf, 1)
    {
      if k != arm {
        NullsAppended(ts[k], kids[k].buf, 1);
        AppendedGrows(ts[k], kids[k].buf, kids'[k].buf, Rep(1, Null));
      }
    }
  }

  /** What the layout of a sparse union and the type of a value say about the arm it goes to. */
  lemma {:induction false} SparseReady(codes: seq<nat>, arms: seq<Type>, b: Buf, v: Value)
    requires TypeOk(Union(false, codes, arms)) && Built(Union(false, codes, arms), b)
    requires HasType(Union(false, codes, arms), v)
    ensures var arm := ChildId(codes, v.code);
            && TypesOk(arms) && 0 <= arm < |arms| == |b.kids| && b.kids[arm].len == |b.ids| == Slots(b)
            && (forall k | 0 <= k < |arms| :: KidBuilt(arms[k], b.kids[k])) && CodesKnown(codes, arms, [v.code])
  {
  }

  lemma {:induction false} SparseAppends(codes: seq<nat>, arms: seq<Type>, b: Buf, v: Value, active: Buf)
    requires TypeOk(Union(false, codes, arms)) && Built(Union(false, codes, arms), b)
    requires HasType(Union(false, codes, arms), v) && v.arm != Null
    requires Appended(arms[ChildId(codes, v.code)], b.kids[ChildId(codes, v.code)].buf, active, [v.arm])
    ensures var arm := ChildId(codes, v.code);
            Appended(Union(false, codes, arms), b,
                     UnionBuf(false, codes, b.ids + [v.code], [], NullKids(b.kids)[arm := Whole(active)]), [v])
  {
    SparseReady(codes, arms, b, v);
    hide ValueAt, At, Grown, Appended, KidsGrown, KidBuilt, Built, TypeOk, ChildId;
    var arm := ChildId(codes, v.code);
    var kids' := NullKids(b.kids)[arm := Whole(active)];
    hide HasType, NullKids;
    AppendedGrows(arms[arm], b.kids[arm].buf, active, [v.arm]);
    OtherArmsNull(arms, b.kids, arm, active);
    SparseGrows(codes, arms, b, kids', [v.code]);
    NewSlot(arms[arm], b.kids[arm], kids'[arm], [v.arm], 0);
    GrownByOne(Union(false, codes, arms), b, UnionBuf(false, codes, b.ids + [v.code], [], kids'), v);
  }

  lemma {:induction false} SlotAppended(t: Type, b: Buf, v: Value)
    requires TypeOk(t) && Built(t, b) && SlotHasType(t, v)
    ensures Appended(t, b, AppendSlot(b, v), [v])
    decreases v, 2
  {
    hide ValueAt, Built, HasType, AppendValue, AppendNulls;
    if v == Null {
      assert Rep(1, v) == [v];
      NullsAppended(t, b, 1);
    } else {
      ValueAppended(t, b, v);
    }
  }

  lemma {:induction false} ElemsAppended(t: Type, b: Buf, vs: seq<Value>)
    requires TypeOk(t) && Built(t, b) && SlotsHaveType(t, vs)
    ensures Appended(t, b, AppendElems(b, vs), vs)
    decreases vs, 3
  {
    hide ValueAt, Built, HasType, AppendSlot;
    if vs != [] {
      var m := AppendSlot(b, vs[0]);
      SlotAppended(t, b, vs[0]);
      ElemsAppended(t, m, vs[1..]);
      AppendedChain(t, b, m, AppendElems(m, vs[1..]), [vs[0]], vs[1..]);
      assert [vs[0]] + vs[1..] == vs;
    }
  }

  lemma {:induction false} ListAppended(t: Type, b: Buf, vs: seq<Value>)
    requires TypeOk(t) && Built(t, b) && SlotsHaveType(t, vs)
    ensures Appended(t, b, AppendList(b, vs), vs)
    decreases vs, 4
  {
    hide ValueAt, Built, HasType, AppendElems, AppendNulls;
    if vs != [] && AllNulls(vs) {
      assert vs == Rep(|vs|, Null);
      NullsAppended(t, b, |vs|);
    } else {
      ElemsAppended(t, b, vs);
    }
  }

  lemma {:induction false} FieldsAppended(ts: seq<Type>, kids: seq<Arr>, vs: seq<Value>)
    requires TypesOk(ts) && |ts| == |kids| == |vs| && SlotsHaveTypes(ts, vs)
    requires forall k | 0 <= k < |ts| :: KidBuilt(ts[k], kids[k])
    ensures KidsGrown(ts, kids, AppendFields(kids, vs), 1)
    ensures forall k | 0 <= k < |ts| :: Appended(ts[k], kids[k].buf, AppendFields(kids, vs)[k].buf, [vs[k]])
    decreases vs, 3
  {
    hide ValueAt, Built, HasType, AppendSlot;
    forall k | 0 <= k < |ts|
      ensures var kid' := AppendFields(kids, vs)[k];
              && kid' == Whole(kid'.buf) && Grown(ts[k], kids[k].buf, kid'.buf, 1)
              && Appended(ts[k], kids[k].buf, kid'.buf, [vs[k]])
    {
      SlotAppended(ts[k], kids[k].buf, vs[k]);
      AppendedGrows(ts[k], kids[k].buf, AppendSlot(kids[k].buf, vs[k]), [vs[k]]);
    }
  }

  // ----- runs -----

  function Truths(raw: bytes): seq<bool> { seq(|raw|, i requires 0 <= i < |raw| => raw[i] != 0) }

  /** One bulk copy of `n` fixed-width values: `AppendRun`. */
  function AppendRun(b: Buf, raw: bytes, n: nat): Buf
  {
    match b
    case BoolBuf(valid, bits) =>
      BoolBuf(valid + Rep(n, true), bits + Truths(raw))
    case FixedBuf(valid, w, lanes) => FixedBuf(valid + Rep(n, true), w, lanes + raw)
    case _ => b
  }

  /** The bulk copy leaves the builder exactly as the element-by-element appends would. */
  lemma {:induction false} RunIsAppends(t: Type, b: Buf, raw: bytes, n: nat)
    requires FixedWidth(t) > 0 && |raw| == n * FixedWidth(t)
    requires if t.Bool? then b.BoolBuf? else b.FixedBuf?
    ensures AppendRun(b, raw, n) == AppendElems(b, RunValues(t, n, raw))
    decreases n
  {
    hide AppendRun, AppendSlot;
    if n == 0 {
      RunOfNothing(b);
    } else {
      RunPeel(t, b, raw, n);
      RunIsAppends(t, AppendSlot(b, RunValue(t, raw[..FixedWidth(t)])), raw[FixedWidth(t)..], n - 1);
    }
  }

  lemma RunOfNothing(b: Buf)
    requires b.BoolBuf? || b.FixedBuf?
    ensures AppendRun(b, [], 0) == b
  {
  }

  lemma {:induction false} RunPeel(t: Type, b: Buf, raw: bytes, n: nat)
    requires FixedWidth(t) > 0 && n > 0 && |raw| == n * FixedWidth(t)
    requires if t.Bool? then b.BoolBuf? else b.FixedBuf?
    ensures var w := FixedWidth(t);
            && w <= |raw| && |raw[w..]| == (n - 1) * w
            && var b' := AppendSlot(b, RunValue(t, raw[..w]));
            && (if t.Bool? then b'.BoolBuf? else b'.FixedBuf?)
            && AppendRun(b', raw[w..], n - 1) == AppendRun(b, raw, n)
  {
    hide AppendNulls;
    var w := FixedWidth(t);
    assert w <= |raw| && |raw[w..]| == (n - 1) * w by { assert |raw| == w + (n - 1) * w && (n - 1) * w >= 0; }
    PeelFlags(b.valid, n);
    if t.Bool? { PeelTruths(b.bits, raw); } else { PeelBytes(b.raw, raw, w); }
  }

  lemma PeelFlags(valid: seq<bool>, n: nat)
    requires n > 0
    ensures valid + [true] + Rep(n - 1, true) == valid + Rep(n, true)
  {
  }

  lemma PeelTruths(bits: seq<bool>, raw: bytes)
    requires raw != []
    ensures bits + [raw[0] != 0] + Truths(raw[1..]) == bits + Truths(raw)
  {
  }

  lemma PeelBytes(lanes: bytes, raw: bytes, w: nat)
    requires w <= |raw|
    ensures lanes + raw[..w] + raw[w..] == lanes + raw
  {
  }
}
