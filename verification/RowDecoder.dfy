/** `Codec::DecodeRow` as it runs: a recursive descent that advances one reader, takes runs of
    fixed-width elements in one piece, and stops at the first malformed byte. */
module RowDecoder {
  import opened Wire
  import opened RowTypes
  import opened CodecSpec
  import opened RowReader

  /** A parse that has already produced `done`. */
  ghost function After(done: seq<Value>, d: Decoded<seq<Value>>): Decoded<seq<Value>>
  {
    match d
    case Err => Err
    case Ok(vs, r) => Ok(done + vs, r)
  }

  lemma AfterNext(done: seq<Value>, v: Value, d: Decoded<seq<Value>>)
    ensures After(done, Cons(v, d)) == After(done + [v], d)
  {
    if d.Ok? { assert done + ([v] + d.val) == done + [v] + d.val; }
  }

  lemma {:induction false} ElemsNext(t: Type, nulls: seq<bool>, i: nat, done: seq<Value>, s: bytes)
    requires i < |nulls|
    ensures After(done, DecodeElems(t, nulls[i..], s))
         == match DecodeSlot(t, nulls[i], s)
            case Err => Err
            case Ok(v, r) => After(done + [v], DecodeElems(t, nulls[i + 1..], r))
  {
    hide Decode, DecodeSlot, After;
    assert nulls[i..][1..] == nulls[i + 1..];
    var d := DecodeSlot(t, nulls[i], s);
    if d.Ok? {
      AfterNext(done, d.val, DecodeElems(t, nulls[i + 1..], d.rest));
    } else {
      AfterErr(done);
    }
  }

  lemma AfterErr(done: seq<Value>)
    ensures After(done, Err) == Err
  {
  }

  lemma {:induction false} FieldsNext(ts: seq<Type>, nulls: seq<bool>, i: nat, done: seq<Value>, s: bytes)
    requires i < |nulls| == |ts|
    ensures After(done, DecodeFields(ts[i..], nulls[i..], s))
         == match DecodeSlot(ts[i], nulls[i], s)
            case Err => Err
            case Ok(v, r) => After(done + [v], DecodeFields(ts[i + 1..], nulls[i + 1..], r))
  {
    hide Decode, DecodeSlot, After;
    assert nulls[i..][1..] == nulls[i + 1..] && ts[i..][1..] == ts[i + 1..];
    var d := DecodeSlot(ts[i], nulls[i], s);
    if d.Ok? {
      AfterNext(done, d.val, DecodeFields(ts[i + 1..], nulls[i + 1..], d.rest));
    } else {
      AfterErr(done);
    }
  }

  method DecodeValue(r: Reader, t: Type) returns (o: Option<Value>)
    requires r.Valid()
    modifies r
    ensures r.Valid() && Reads(Decode(t, old(r.Rest())), o, r.Rest())
    decreases t, 0
  {
    hide DecodeElems, DecodeFields, Flags;
    match t {
      case Bool =>
        var b := r.ReadBytes(1);
        return if b.None? then None else Some(BoolV(b.value[0] != 0));
      case Fixed(w) =>
        var b := r.ReadBytes(w);
        return if b.None? then None else Some(FixedV(b.value));
      case VarLen(_) =>
        var n := r.ReadU32();
        if n.None? { return None; }
        var b := r.ReadBytes(n.value);
        return if b.None? then None else Some(VarV(b.value));
      case Struct(ts) =>
        var vs := DecodeStruct(r, ts);
        return if vs.None? then None else Some(StructV(vs.value));
      case List(_, e) =>
        var n := r.ReadU32();
        if n.None? { return None; }
        if BitfieldBytes(n.value) > r.Remaining() { return None; }
        var vs := DecodeListElements(r, n.value, e);
        return if vs.None? then None else Some(ListV(vs.value));
      case FixedSizeList(n, e) =>
        var vs := DecodeListElements(r, n, e);
        return if vs.None? then None else Some(ListV(vs.value));
      case Map(k, i) =>
        var n := r.ReadU32();
        if n.None? { return None; }
        if n.value > r.Remaining() { return None; }
        var ks := DecodeEach(r, seq(n.value, _ => false), k);
        if ks.None? { return None; }
        var vs := DecodeMapItems(r, n.value, i);
        return if vs.None? then None else Some(MapV(ks.value, vs.value));
      case Union(_, codes, arms) =>
        var b := r.ReadBytes(1);
        if b.None? { return None; }
        var arm := if b.value[0] >= 128 then -1 else ChildId(codes, b.value[0]);
        if arm < 0 || arm >= |arms| { return None; }
        var v := DecodeValue(r, arms[arm]);
        return if v.None? then None else Some(UnionV(b.value[0], v.value));
    }
  }

  /** The element loop of a list, of a map's keys and of a map's items. */
  method DecodeEach(r: Reader, nulls: seq<bool>, t: Type) returns (o: Option<seq<Value>>)
    requires r.Valid()
    modifies r
    ensures r.Valid() && Reads(DecodeElems(t, nulls, old(r.Rest())), o, r.Rest())
    decreases t, 1
  {
    hide Decode, DecodeElems, After;
    ghost var d := DecodeElems(t, nulls, r.Rest());
    var vs := [];
    assert nulls[0..] == nulls && After([], d) == d by { AfterNothing(d); }
    for i := 0 to |nulls|
      invariant r.Valid() && d == After(vs, DecodeElems(t, nulls[i..], r.Rest()))
    {
      ElemsNext(t, nulls, i, vs, r.Rest());
      if nulls[i] {
        vs := vs + [Null];
      } else {
        var v := DecodeValue(r, t);
        if v.None? { return None; }
        vs := vs + [v.value];
      }
    }
    ElemsEnd(t, nulls, vs, r.Rest());
    return Some(vs);
  }

  lemma AfterNothing(d: Decoded<seq<Value>>)
    ensures After([], d) == d
  {
    if d.Ok? { assert [] + d.val == d.val; }
  }

  lemma {:induction false} ElemsEnd(t: Type, nulls: seq<bool>, vs: seq<Value>, s: bytes)
    ensures After(vs, DecodeElems(t, nulls[|nulls|..], s)) == Ok(vs, s)
  {
    assert vs + [] == vs;
  }

  method DecodeMapItems(r: Reader, count: nat, t: Type) returns (o: Option<seq<Value>>)
    requires r.Valid()
    modifies r
    ensures r.Valid() && Reads(DecodeList(t, count, old(r.Rest())), o, r.Rest())
    decreases t, 2
  {
    hide Decode, DecodeElems, Flags;
    var bf := r.ReadBytes(BitfieldBytes(count));
    if bf.None? { return None; }
    o := DecodeEach(r, Flags(bf.value, count), t);
  }

  /** A list body: an all-valid run of a fixed-width type in one piece, anything else one by one. */
  method DecodeListElements(r: Reader, count: nat, t: Type) returns (o: Option<seq<Value>>)
    requires r.Valid()
    modifies r
    ensures r.Valid() && Reads(DecodeList(t, count, old(r.Rest())), o, r.Rest())
    decreases t, 2
  {
    hide Decode, DecodeElems, Flags, RunValues;
    var bf := r.ReadBytes(BitfieldBytes(count));
    if bf.None? { return None; }
    var width := FixedWidth(t);
    var allValid := AllValid(bf.value, count);
    if count > 0 && width > 0 && allValid {
      ghost var s := r.Rest();
      AllValidMeansNoNulls(bf.value, count);
      RunIsElements(t, count, s);
      DivideNeverMultiply(count, width, |s|);
      if count > r.Remaining() / width { return None; }
      var run := r.ReadBytes(count * width);
      return Some(RunValues(t, count, run.value));
    }
    o := DecodeEach(r, Flags(bf.value, count), t);
  }

  method DecodeStruct(r: Reader, ts: seq<Type>) returns (o: Option<seq<Value>>)
    requires r.Valid()
    modifies r
    ensures r.Valid()
    ensures var d := Take(old(r.Rest()), BitfieldBytes(|ts|));
            if d.Err? then o.None? else Reads(DecodeFields(ts, Flags(d.val, |ts|), d.rest), o, r.Rest())
    decreases ts, 0
  {
    hide Decode, DecodeFields, Flags, After;
    var bf := r.ReadBytes(BitfieldBytes(|ts|));
    if bf.None? { return None; }
    var nulls := Flags(bf.value, |ts|);
    ghost var d := DecodeFields(ts, nulls, r.Rest());
    var vs := [];
    assert nulls[0..] == nulls && ts[0..] == ts && After([], d) == d by { AfterNothing(d); }
    for i := 0 to |ts|
      invariant r.Valid() && d == After(vs, DecodeFields(ts[i..], nulls[i..], r.Rest()))
    {
      FieldsNext(ts, nulls, i, vs, r.Rest());
      if nulls[i] {
        vs := vs + [Null];
      } else {
        var v := DecodeValue(r, ts[i]);
        if v.None? { return None; }
        vs := vs + [v.value];
      }
    }
    FieldsEnd(ts, nulls, vs, r.Rest());
    return Some(vs);
  }

  lemma {:induction false} FieldsEnd(ts: seq<Type>, nulls: seq<bool>, vs: seq<Value>, s: bytes)
    requires |ts| == |nulls|
    ensures After(vs, DecodeFields(ts[|ts|..], nulls[|ts|..], s)) == Ok(vs, s)
  {
    assert vs + [] == vs;
  }

  lemma {:induction false} RowUnfold(schema: seq<Type>, s: bytes)
    ensures DecodeRow(schema, s)
         == match Take(s, BitfieldBytes(|schema|))
            case Err => Err
            case Ok(bf, r) =>
              match DecodeFields(schema, Flags(bf, |schema|), r)
              case Err => Err
              case Ok(vs, r') => if r' == [] then Ok(vs, []) else Err
  {
    hide DecodeFields, Flags;
  }

  /** Decodes one row, which must be consumed exactly. */
  method DecodeRowBytes(schema: seq<Type>, data: bytes) returns (o: Option<seq<Value>>)
    ensures Reads(DecodeRow(schema, data), o, [])
  {
    hide Decode, DecodeFields, DecodeRow, Flags;
    RowUnfold(schema, data);
    var r := new Reader(data);
    o := DecodeStruct(r, schema);
    if r.Remaining() != 0 { return None; }
  }
}
