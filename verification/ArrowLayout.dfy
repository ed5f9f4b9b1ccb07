/** What a slot of an Arrow array shows, read straight off its buffers as the columnar format lays them
    out: validity, offsets, lengths and type codes, one byte or element at a time. */
module ArrowLayout {
  import opened Wire
  import opened RowTypes
  import opened Columns
  import opened BatchRun

  /** Slot `i` of the buffers shows `v`. */
  ghost predicate Shows(b: Buf, i: nat, v: Value)
    decreases b, 0
  {
    match b
    case BoolBuf(valid, bits) =>
      i < |valid| && i < |bits| && if valid[i] then v == BoolV(bits[i]) else v == Null
    case FixedBuf(valid, w, raw) =>
      && i < |valid| && i * w + w <= |raw|
      && if valid[i] then v.FixedV? && |v.raw| == w && forall j | 0 <= j < w :: v.raw[j] == raw[i * w + j]
         else v == Null
    case VarBuf(valid, starts, data) =>
      && i < |valid| && i < |starts| && starts[i] <= End(starts, i, |data|) <= |data|
      && if valid[i] then
           v.VarV? && starts[i] + |v.data| == End(starts, i, |data|) && forall j | 0 <= j < |v.data| :: v.data[j] == data[starts[i] + j]
         else v == Null
    case StructBuf(valid, kids) =>
      && i < |valid|
      && if valid[i] then v.StructV? && |v.fields| == |kids| && forall k | 0 <= k < |kids| :: ShowsAt(kids[k], i, v.fields[k])
         else v == Null
    case ListBuf(valid, starts, kid) =>
      && i < |valid| && i < |starts| && starts[i] <= End(starts, i, kid.len) <= kid.len
      && if valid[i] then
           v.ListV? && starts[i] + |v.elems| == End(starts, i, kid.len) && ShowsRun(kid, starts[i], v.elems)
         else v == Null
    case FslBuf(valid, size, kid) =>
      && i < |valid| && i * size + size <= kid.len
      && if valid[i] then v.ListV? && |v.elems| == size && ShowsRun(kid, i * size, v.elems)
         else v == Null
    case MapBuf(valid, starts, keys, items) =>
      && i < |valid| && i < |starts| && starts[i] <= End(starts, i, items.len) <= items.len
      && if valid[i] then
           && v.MapV? && |v.keys| == |v.items| && starts[i] + |v.items| == End(starts, i, items.len)
           && ShowsRun(keys, starts[i], v.keys) && ShowsRun(items, starts[i], v.items)
         else v == Null
    case UnionBuf(dense, codes, ids, places, kids) =>
      && i < |ids|
      && exists k | 0 <= k < |codes| && k < |kids| ::
           && codes[k] == ids[i] && (dense ==> i < |places|)
           && var slot := if dense then places[i] else i;
              if v == Null then ShowsAt(kids[k], slot, Null)
              else v.UnionV? && v.code == ids[i] && v.arm != Null && ShowsAt(kids[k], slot, v.arm)
  }

  /** A child column is read from its own offset on. */
  ghost predicate ShowsAt(a: Arr, i: nat, v: Value)
    decreases a, 0
  {
    Shows(a.buf, a.off + i, v)
  }

  /** The elements from slot `at` on, one by one. */
  ghost predicate ShowsRun(kid: Arr, at: nat, vs: seq<Value>)
    decreases kid, 1
  {
    forall j | 0 <= j < |vs| :: ShowsAt(kid, at + j, vs[j])
  }

  /** Where slot `i` ends: at the next offset, or at the end of the child. */
  function End(starts: seq<nat>, i: nat, total: nat): nat { if i + 1 < |starts| then starts[i + 1] else total }

  // ----- it is the value of the slot -----

  lemma {:induction false} CodesAreDistinct(codes: seq<nat>, k: nat)
    requires k < |codes| && forall i, j | 0 <= i < j < |codes| :: codes[i] != codes[j]
    ensures ChildId(codes, codes[k]) == k
  {
  }

  lemma {:induction false} FixedShows(t: Type, b: Buf, i: nat, v: Value)
    requires t.Fixed? && Built(t, b) && i < Slots(b)
    ensures Shows(b, i, v) <==> ValueAt(b, i) == v
  {
    var w := t.width;
    LaneInside(|b.valid|, i, w);
    assert Slice(b.raw, i * w, i * w + w) == b.raw[i * w..i * w + w];
    if Shows(b, i, v) && b.valid[i] { assert v.raw == b.raw[i * w..i * w + w]; }
  }

  lemma {:induction false} ScalarShows(t: Type, b: Buf, i: nat, v: Value)
    requires Built(t, b) && i < Slots(b) && (t.Bool? || t.Fixed? || t.VarLen?)
    ensures Shows(b, i, v) <==> ValueAt(b, i) == v
  {
    match t
    case Bool =>
    case Fixed(_) => FixedShows(t, b, i, v);
    case VarLen(_) =>
      assert SlotEnd(b.starts, i, |b.data|) == End(b.starts, i, |b.data|);
      if Shows(b, i, v) && b.valid[i] { assert v.data == b.data[b.starts[i]..End(b.starts, i, |b.data|)]; }
  }

  lemma LaneInside(n: nat, i: nat, w: nat)
    requires i < n
    ensures i * w + w <= n * w
  {
    assert n * w == i * w + (n - i) * w;
    assert (n - i) * w >= w by { assert (n - i) * w == w + (n - i - 1) * w; }
  }

  /** In well-laid-out columns a slot shows exactly its value. */
  lemma {:induction false} ShowsIff(t: Type, b: Buf, i: nat, v: Value)
    requires TypeOk(t) && Built(t, b) && i < Slots(b)
    ensures Shows(b, i, v) <==> ValueAt(b, i) == v
    decreases t, 1
  {
    match t
    case Struct(ts) => StructShows(t, b, i, v);
    case List(_, _) => ListShows(t, b, i, v);
    case FixedSizeList(_, _) => FslShows(t, b, i, v);
    case Map(_, _) => MapShows(t, b, i, v);
    case Union(_, _, _) => UnionShows(t, b, i, v);
    case _ => ScalarShows(t, b, i, v);
  }

  lemma {:induction false} KidShows(t: Type, a: Arr, i: nat, v: Value)
    requires TypeOk(t) && KidBuilt(t, a) && i < a.len
    ensures ShowsAt(a, i, v) <==> At(a, i) == v
    decreases t, 2
  {
    hide ValueAt, Built, TypeOk, Shows;
    assert a.off + i == i;
    ShowsIff(t, a.buf, i, v);
  }

  lemma {:induction false} StructShows(t: Type, b: Buf, i: nat, v: Value)
    requires t.Struct? && TypeOk(t) && Built(t, b) && i < Slots(b)
    ensures Shows(b, i, v) <==> ValueAt(b, i) == v
    decreases t, 0
  {
    if b.valid[i] {
      var vs := FieldsAt(b, i);
      if v.StructV? && |v.fields| == |b.kids| {
        forall k | 0 <= k < |b.kids|
          ensures ShowsAt(b.kids[k], i, v.fields[k]) <==> vs[k] == v.fields[k]
        {
          KidShows(t.fields[k], b.kids[k], i, v.fields[k]);
        }
        hide At, ShowsAt, TypeOk, Built, ValueAt, FieldsAt;
        if Shows(b, i, v) { assert v.fields == vs; }
      }
    }
  }

  ghost function FieldsAt(b: Buf, i: nat): (vs: seq<Value>)
    requires b.StructBuf? && i < |b.valid| && b.valid[i]
    ensures |vs| == |b.kids| && ValueAt(b, i) == StructV(vs) && forall k | 0 <= k < |vs| :: vs[k] == At(b.kids[k], i)
  {
    seq(|b.kids|, k requires 0 <= k < |b.kids| => At(b.kids[k], i))
  }

  /** Elements `a` up to `z` of a child, one by one. */
  lemma {:induction false} RunShows(e: Type, kid: Arr, a: nat, z: nat, vs: seq<Value>)
    requires TypeOk(e) && KidBuilt(e, kid) && a <= z <= kid.len
    ensures a + |vs| == z && ShowsRun(kid, a, vs) <==> Window(kid, a, z) == vs
    decreases e, 3
  {
    hide ValueAt, At, ShowsAt, Built, TypeOk, Window;
    WindowAt(kid, a, z);
    if a + |vs| == z {
      forall j | 0 <= j < |vs|
        ensures ShowsAt(kid, a + j, vs[j]) <==> Window(kid, a, z)[j] == vs[j]
      {
        KidShows(e, kid, a + j, vs[j]);
      }
    }
  }

  lemma {:induction false} ListShows(t: Type, b: Buf, i: nat, v: Value)
    requires t.List? && TypeOk(t) && Built(t, b) && i < Slots(b)
    ensures Shows(b, i, v) <==> ValueAt(b, i) == v
    decreases t, 0
  {
    assert SlotEnd(b.starts, i, b.kid.len) == End(b.starts, i, b.kid.len);
    RunShows(t.elem, b.kid, b.starts[i], End(b.starts, i, b.kid.len), if v.ListV? then v.elems else []);
    hide ShowsRun, Window;
  }

  lemma {:induction false} FslShows(t: Type, b: Buf, i: nat, v: Value)
    requires t.FixedSizeList? && TypeOk(t) && Built(t, b) && i < Slots(b)
    ensures Shows(b, i, v) <==> ValueAt(b, i) == v
    decreases t, 0
  {
    LaneInside(|b.valid|, i, t.size);
    RunShows(t.elem, b.kid, i * t.size, i * t.size + t.size, if v.ListV? then v.elems else []);
    hide ShowsRun, Window;
  }

  lemma {:induction false} MapShows(t: Type, b: Buf, i: nat, v: Value)
    requires t.Map? && TypeOk(t) && Built(t, b) && i < Slots(b)
    ensures Shows(b, i, v) <==> ValueAt(b, i) == v
    decreases t, 0
  {
    var a, z := b.starts[i], End(b.starts, i, b.items.len);
    assert SlotEnd(b.starts, i, b.items.len) == z && a <= z <= b.items.len == b.keys.len;
    hide ShowsRun, Window;
    RunShows(t.key, b.keys, a, z, if v.MapV? then v.keys else []);
    RunShows(t.item, b.items, a, z, if v.MapV? then v.items else []);
    WindowAt(b.keys, a, z);
    WindowAt(b.items, a, z);
    hide TypeOk, Built, StartsOk;
  }

  lemma {:induction false} UnionShows(t: Type, b: Buf, i: nat, v: Value)
    requires t.Union? && TypeOk(t) && Built(t, b) && i < Slots(b)
    ensures Shows(b, i, v) <==> ValueAt(b, i) == v
    decreases t, 0
  {
    var k := ChildId(t.codes, b.ids[i]);
    var slot := if t.dense then b.places[i] else i;
    forall x: Value
      ensures ShowsAt(b.kids[k], slot, x) <==> At(b.kids[k], slot) == x
    {
      KidShows(t.arms[k], b.kids[k], slot, x);
    }
    forall m | 0 <= m < |t.codes| && t.codes[m] == b.ids[i]
      ensures m == k
    {
      CodesAreDistinct(t.codes, m);
    }
    hide At, ShowsAt, TypeOk, ChildId;
  }

  // ----- what a batch shows -----

  /** After any run, slot `r` of column `c` shows field `c` of the `r`-th accepted row, off the buffers. */
  lemma {:induction false} BuffersShowRows(schema: seq<Type>, datas: seq<bytes>, r: nat, c: nat)
    requires TypesOk(schema) && r < |Accepted(schema, datas)| && c < |schema|
    ensures var table := Run(schema, datas);
            && table.StructBuf? && c < |table.kids| && |Accepted(schema, datas)[r]| == |schema|
            && table.kids[c].off == 0 && table.kids[c].len == |Accepted(schema, datas)| == Slots(table.kids[c].buf)
            && Shows(table.kids[c].buf, r, Accepted(schema, datas)[r][c])
  {
    BatchRefinesCodec(schema, datas);
    var table, rows := Run(schema, datas), Accepted(schema, datas);
    hide Run, Accepted, Shows, ValueAt;
    assert Cell(table, rows, r, c);
    assert KidBuilt(schema[c], table.kids[c]);
    ShowsIff(schema[c], table.kids[c].buf, r, rows[r][c]);
  }
}
