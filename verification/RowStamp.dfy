/** Stamping a trailing `UInt64` column onto an encoded row without decoding it. */
module RowStamp {
  import opened Wire
  import opened RowTypes
  import opened CodecSpec
  import opened CodecLaws
  import opened RowReader
  import opened RowDecoder

  /** `b & ~(1 << i)`. */
  function ClearBit(b: nat, i: nat): (r: nat)
    ensures r <= b
  {
    if i == 0 then b - b % 2 else b % 2 + 2 * ClearBit(b / 2, i - 1)
  }

  lemma LowAndRest(x: nat, c: nat)
    requires x < 2
    ensures (x + 2 * c) % 2 == x && (x + 2 * c) / 2 == c
  {
  }

  lemma {:induction false} ClearBitAt(b: nat, i: nat, j: nat)
    ensures Bit(ClearBit(b, i), j) <==> j != i && Bit(b, j)
    decreases j
  {
    var c := if i == 0 then b / 2 else ClearBit(b / 2, i - 1);
    var x := if i == 0 then 0 else b % 2;
    assert ClearBit(b, i) == x + 2 * c;
    LowAndRest(x, c);
    if j > 0 && i > 0 { ClearBitAt(b / 2, i - 1, j - 1); }
  }

  /** The bitfield of `n` fields grown by one non-null field. */
  function GrowBits(bits: bytes, n: nat): (r: bytes)
    requires |bits| == BitfieldBytes(n)
    ensures |r| == BitfieldBytes(n + 1)
  {
    if n % 8 == 0 then bits + [0] else bits[n / 8 := ClearBit(bits[n / 8], n % 8)]
  }

  lemma GrownFlags(bits: bytes, n: nat)
    requires |bits| == BitfieldBytes(n)
    ensures Flags(GrowBits(bits, n), n + 1) == Flags(bits, n) + [false]
  {
    hide Bit, ClearBit;
    forall i | 0 <= i < n + 1
      ensures Flags(GrowBits(bits, n), n + 1)[i] == (Flags(bits, n) + [false])[i]
    {
      if n % 8 == 0 {
        if i == n { NoBits(n % 8); }
      } else {
        ClearBitAt(bits[n / 8], n % 8, i % 8);
      }
    }
  }

  /** The source's three steps: copy, extend with zero bytes, clear the new bit. */
  lemma ClearedIsGrown(bits: bytes, n: nat)
    requires |bits| == BitfieldBytes(n)
    ensures var more := BitfieldBytes(n + 1) - |bits|;
            && more >= 0 && n / 8 < |bits| + more
            && var out := bits + seq(more, _ => 0 as byte);
               out[n / 8 := ClearBit(out[n / 8], n % 8)] == GrowBits(bits, n)
  {
    hide ClearBit;
    if n % 8 == 0 {
      assert BitfieldBytes(n) == n / 8 && BitfieldBytes(n + 1) == n / 8 + 1;
      assert ClearBit(0, 0) == 0 by { ClearNothing(); }
    } else {
      assert BitfieldBytes(n + 1) == BitfieldBytes(n);
      assert bits + [] == bits;
    }
  }

  lemma ClearNothing()
    ensures ClearBit(0, 0) == 0
  {
  }

  /** Appends `stamp` as one more non-null field of a row with `n` fields. */
  method AppendTrailing(row: bytes, n: nat, stamp: bytes) returns (o: Option<bytes>)
    requires |stamp| == 8
    ensures o.None? <==> |row| < BitfieldBytes(n)
    ensures o.Some? ==> o.value == Stamped(row, n, stamp)
  {
    hide ClearBit, GrowBits;
    var oldSize := BitfieldBytes(n);
    var newSize := BitfieldBytes(n + 1);
    if |row| < oldSize { return None; }
    ClearedIsGrown(row[..oldSize], n);
    var out := row[..oldSize];
    out := out + seq(newSize - oldSize, _ => 0 as byte);
    out := out[n / 8 := ClearBit(out[n / 8], n % 8)];
    assert out == GrowBits(row[..oldSize], n);
    out := out + row[oldSize..];
    return Some(out + stamp);
  }

  ghost function Stamped(row: bytes, n: nat, stamp: bytes): bytes
    requires BitfieldBytes(n) <= |row|
  {
    GrowBits(row[..BitfieldBytes(n)], n) + (row[BitfieldBytes(n)..] + stamp)
  }

  method ReadTrailing(row: bytes) returns (o: Option<bytes>)
    ensures o.None? <==> |row| < 8
    ensures o.Some? ==> o.value == row[|row| - 8..]
  {
    if |row| < 8 { return None; }
    return Some(row[|row| - 8..]);
  }

  lemma {:induction false} FieldsSnoc(ts: seq<Type>, nulls: seq<bool>, t: Type, s: bytes)
    requires |ts| == |nulls|
    ensures DecodeFields(ts + [t], nulls + [false], s)
         == match DecodeFields(ts, nulls, s)
            case Err => Err
            case Ok(vs, r) => match Decode(t, r) case Err => Err case Ok(v, r') => Ok(vs + [v], r')
    decreases |ts|
  {
    hide Decode;
    if ts == [] {
      assert ts + [t] == [t] && nulls + [false] == [false] && [t][1..] == [] && [false][1..] == [];
      var d := Decode(t, s);
      assert DecodeFields([t], [false], s) == if d.Ok? then Cons(d.val, Ok([], d.rest)) else Err;
      if d.Ok? { assert [d.val] + [] == [] + [d.val]; }
    } else {
      assert (ts + [t])[1..] == ts[1..] + [t] && (nulls + [false])[1..] == nulls[1..] + [false];
      var d := DecodeSlot(ts[0], nulls[0], s);
      if d.Ok? {
        FieldsSnoc(ts[1..], nulls[1..], t, d.rest);
        var e := DecodeFields(ts[1..], nulls[1..], d.rest);
        if e.Ok? && Decode(t, e.rest).Ok? {
          assert [d.val] + (e.val + [Decode(t, e.rest).val]) == [d.val] + e.val + [Decode(t, e.rest).val];
        }
      }
    }
  }

  /** A stamped row decodes to the old row with the stamp as its last field, whatever the padding bits
      of the old bitfield were, and the stamp can be read back without a schema. */
  lemma StampedRowDecodes(schema: seq<Type>, row: bytes, stamp: bytes)
    requires DecodeRow(schema, row).Ok? && |stamp| == 8
    ensures |row| >= BitfieldBytes(|schema|)
    ensures var s := Stamped(row, |schema|, stamp);
            && DecodeRow(schema + [Fixed(8)], s) == Ok(DecodeRow(schema, row).val + [FixedV(stamp)], [])
            && |s| >= 8 && s[|s| - 8..] == stamp
  {
    hide DecodeRow, DecodeFields, Flags, GrowBits;
    RowUnfold(schema, row);
    var n := |schema|;
    var bits, rest := row[..BitfieldBytes(n)], row[BitfieldBytes(n)..];
    var s := Stamped(row, n, stamp);
    RowUnfold(schema + [Fixed(8)], s);
    TakeOf(GrowBits(bits, n), rest + stamp);
    GrownFlags(bits, n);
    FieldsSnoc(schema, Flags(bits, n), Fixed(8), rest + stamp);
    FieldsStable(schema, Flags(bits, n), rest, stamp);
    assert [] + stamp == stamp && stamp[..8] == stamp;
    assert s[|s| - 8..] == stamp;
  }
}
