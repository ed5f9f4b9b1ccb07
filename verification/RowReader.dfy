/** The cursor over a wire row, the bitfield scans and the run of fixed-width elements that both
    decoders share. */
module RowReader {
  import opened Wire
  import opened RowTypes
  import opened CodecSpec

  datatype Option<+T> = None | Some(value: T)

  /** A cursor over one row.  A failed read leaves the cursor where it was. */
  class Reader {
    const data: bytes
    var pos: nat

    constructor (data: bytes)
      ensures Valid() && this.data == data && Rest() == data
    {
      this.data := data;
      pos := 0;
    }

    ghost predicate Valid()
      reads this
    {
      pos <= |data|
    }

    /** The bytes not yet consumed. */
    ghost function Rest(): bytes
      requires Valid()
      reads this
    {
      data[pos..]
    }

    function Remaining(): (n: nat)
      requires Valid()
      reads this
      ensures n == |Rest()|
    {
      |data| - pos
    }

    method ReadBytes(n: nat) returns (o: Option<bytes>)
      requires Valid()
      modifies this
      ensures Valid() && Reads(Take(old(Rest()), n), o, Rest())
      ensures o.None? ==> pos == old(pos)
    {
      if n > |data| - pos {
        return None;
      }
      assert Rest()[..n] == data[pos..pos + n] && Rest()[n..] == data[pos + n..];
      o := Some(data[pos..pos + n]);
      pos := pos + n;
    }

    method ReadU32() returns (o: Option<nat>)
      requires Valid()
      modifies this
      ensures Valid() && Reads(TakeU32(old(Rest())), o, Rest())
      ensures o.None? ==> pos == old(pos)
    {
      if 4 > |data| - pos {
        return None;
      }
      o := Some(Horner(data[pos], Horner(data[pos + 1], Horner(data[pos + 2], data[pos + 3]))));
      pos := pos + 4;
    }
  }

  /** A reading method's answer `o`, leaving `rest`, is the parser's answer `d`. */
  ghost predicate Reads<T(!new)>(d: Decoded<T>, o: Option<T>, rest: bytes)
  {
    match d
    case Err => o.None?
    case Ok(v, r) => o == Some(v) && rest == r
  }

  // ----- bitfield scans -----

  predicate AllZero(bf: bytes) { forall k | 0 <= k < |bf| :: bf[k] == 0 }

  /** No byte of the bitfield is set, padding included. */
  method AllValid(bf: bytes, count: nat) returns (b: bool)
    requires |bf| == BitfieldBytes(count)
    ensures b <==> AllZero(bf)
  {
    for i := 0 to BitfieldBytes(count)
      invariant forall k | 0 <= k < i :: bf[k] == 0
    {
      if bf[i] != 0 {
        return false;
      }
    }
    return true;
  }

  /** `b & (2^n - 1)`. */
  function LowBits(b: nat, n: nat): nat
  {
    if n == 0 then 0 else b % 2 + 2 * LowBits(b / 2, n - 1)
  }

  ghost predicate AllBits(b: nat, n: nat) { forall i: nat | i < n :: Bit(b, i) }

  lemma AllBitsStep(b: nat, n: nat)
    ensures AllBits(b, n + 1) <==> b % 2 == 1 && AllBits(b / 2, n)
  {
    if AllBits(b, n + 1) {
      assert Bit(b, 0);
      forall i: nat | i < n
        ensures Bit(b / 2, i)
      {
        assert Bit(b, i + 1);
      }
    }
    if b % 2 == 1 && AllBits(b / 2, n) {
      forall i: nat | i < n + 1
        ensures Bit(b, i)
      {
        if i > 0 { assert Bit(b / 2, i - 1); }
      }
    }
  }

  lemma {:induction false} LowBitsFull(b: nat, n: nat)
    ensures LowBits(b, n) <= Pow2(n) - 1
    ensures LowBits(b, n) == Pow2(n) - 1 <==> AllBits(b, n)
    decreases n
  {
    if n > 0 {
      LowBitsFull(b / 2, n - 1);
      AllBitsStep(b, n - 1);
      assert LowBits(b, n) == Pow2(n) - 1 <==> b % 2 == 1 && LowBits(b / 2, n - 1) == Pow2(n - 1) - 1;
    }
  }

  lemma {:induction false} LowBitsSmall(b: nat, n: nat)
    requires b < Pow2(n)
    ensures LowBits(b, n) == b
    decreases n
  {
    if n > 0 { LowBitsSmall(b / 2, n - 1); }
  }

  lemma FullByte(b: byte)
    ensures b == 255 <==> AllBits(b, 8)
  {
    hide AllBits, LowBits;
    assert Pow2(8) == 256 by { assert Pow2(4) == 16; }
    LowBitsFull(b, 8);
    LowBitsSmall(b, 8);
  }

  lemma {:induction false} FlagIsBit(bf: bytes, count: nat, i: nat)
    requires |bf| == BitfieldBytes(count) && i < count
    ensures Flags(bf, count)[i] == Bit(bf[i / 8], i % 8)
  {
  }

  /** Every one of the first `count` bits is set, whatever the padding holds. */
  method AllNull(bf: bytes, count: nat) returns (b: bool)
    requires |bf| == BitfieldBytes(count)
    ensures b <==> forall i | 0 <= i < count :: Flags(bf, count)[i]
  {
    hide AllBits, LowBits, Flags;
    var full := count / 8;
    for k := 0 to full
      invariant forall i | 0 <= i < 8 * k :: Flags(bf, count)[i]
    {
      FullByte(bf[k]);
      BitsOfByte(bf, count, k, 8);
      if bf[k] != 255 {
        return false;
      }
    }
    var rem := count % 8;
    if rem > 0 {
      LowBitsFull(bf[full], rem);
      BitsOfByte(bf, count, full, rem);
      if LowBits(bf[full], rem) != Pow2(rem) - 1 {
        return false;
      }
    }
    return true;
  }

  lemma BitsOfByte(bf: bytes, count: nat, k: nat, n: nat)
    requires |bf| == BitfieldBytes(count) && n <= 8 && 8 * k + n <= count && k < |bf|
    ensures AllBits(bf[k], n) <==> forall j | 8 * k <= j < 8 * k + n :: Flags(bf, count)[j]
  {
    hide Bit;
    forall i: nat | i < n
      ensures Flags(bf, count)[8 * k + i] == Bit(bf[k], i)
    {
      FlagIsBit(bf, count, 8 * k + i);
      assert (8 * k + i) / 8 == k && (8 * k + i) % 8 == i;
    }
    if AllBits(bf[k], n) {
      forall j | 8 * k <= j < 8 * k + n
        ensures Flags(bf, count)[j]
      {
        assert Bit(bf[k], j - 8 * k);
      }
    }
  }

  lemma {:induction false} NoBits(i: nat)
    ensures !Bit(0, i)
    decreases i
  {
    if i > 0 { NoBits(i - 1); }
  }

  /** `AllValid` means no null below the count; the converse holds when the padding is clear. */
  lemma AllValidMeansNoNulls(bf: bytes, n: nat)
    requires |bf| == BitfieldBytes(n)
    ensures AllZero(bf) ==> Flags(bf, n) == seq(n, _ => false)
    ensures Flags(bf, n) == seq(n, _ => false) && bf == Pack(Flags(bf, n)) ==> AllZero(bf)
  {
    if AllZero(bf) {
      forall i | 0 <= i < n
        ensures !Flags(bf, n)[i]
      {
        NoBits(i % 8);
      }
    }
    if Flags(bf, n) == seq(n, _ => false) && bf == Pack(Flags(bf, n)) {
      forall k | 0 <= k < |bf|
        ensures bf[k] == 0
      {
        PackNothing(seq(n, _ => false), 8 * k, 8);
      }
    }
  }

  lemma {:induction false} PackNothing(flags: seq<bool>, start: nat, n: nat)
    requires true !in flags
    ensures PackFrom(flags, start, n) == 0
    decreases n
  {
    if n > 0 { PackNothing(flags, start + 1, n - 1); }
  }

  // ----- runs of fixed-width elements -----

  /** The wire width of a type whose runs are copied in one piece; 0 for any other type. */
  function FixedWidth(t: Type): nat
  {
    match t
    case Bool => 1
    case Fixed(w) => w
    case _ => 0
  }

  /** The value of one element of a run. */
  function RunValue(t: Type, raw: bytes): Value
    requires |raw| == FixedWidth(t) > 0
  {
    if t.Bool? then BoolV(raw[0] != 0) else FixedV(raw)
  }

  function RunValues(t: Type, n: nat, raw: bytes): (vs: seq<Value>)
    requires |raw| == n * FixedWidth(t) && FixedWidth(t) > 0
    ensures |vs| == n
    decreases n
  {
    if n == 0 then []
    else
      assert n * FixedWidth(t) == FixedWidth(t) + (n - 1) * FixedWidth(t);
      [RunValue(t, raw[..FixedWidth(t)])] + RunValues(t, n - 1, raw[FixedWidth(t)..])
  }

  /** `count > remaining / width` is the overflow-free form of `count * width > remaining`. */
  lemma DivideNeverMultiply(n: nat, w: nat, m: nat)
    requires w > 0
    ensures n > m / w <==> n * w > m
  {
    assert m / w * w <= m < m / w * w + w;
    if n > m / w {
      assert n * w >= (m / w + 1) * w;
    } else {
      assert n * w <= m / w * w;
    }
  }

  ghost function DecodeRun(t: Type, n: nat, s: bytes): Decoded<seq<Value>>
    requires FixedWidth(t) > 0
  {
    var k := n * FixedWidth(t);
    if k <= |s| then Ok(RunValues(t, n, s[..k]), s[k..]) else Err
  }

  lemma RunStep(t: Type, n: nat, s: bytes)
    requires n > 0 && FixedWidth(t) > 0
    ensures var w := FixedWidth(t);
            DecodeRun(t, n, s)
            == if w <= |s| then Cons(RunValue(t, s[..w]), DecodeRun(t, n - 1, s[w..])) else Err
  {
    var w, k := FixedWidth(t), n * FixedWidth(t);
    assert k == w + (n - 1) * w && (n - 1) * w >= 0;
    if k <= |s| {
      assert s[..k][..w] == s[..w];
      assert s[..k][w..] == s[w..][..(n - 1) * w];
      assert s[w..][(n - 1) * w..] == s[k..];
    }
  }

  /** An all-valid run read in one piece is the run read one element at a time, errors included. */
  lemma {:induction false} RunIsElements(t: Type, n: nat, s: bytes)
    requires FixedWidth(t) > 0
    ensures DecodeElems(t, seq(n, _ => false), s) == DecodeRun(t, n, s)
    decreases n
  {
    hide RunValues;
    if n == 0 {
      assert s[0..] == s && s[..0] == [];
      assert DecodeRun(t, 0, s) == Ok(RunValues(t, 0, []), s);
    } else {
      var w := FixedWidth(t);
      RunStep(t, n, s);
      assert Decode(t, s) == if w <= |s| then Ok(RunValue(t, s[..w]), s[w..]) else Err;
      assert seq(n, _ => false)[1..] == seq(n - 1, _ => false);
      if w <= |s| { RunIsElements(t, n - 1, s[w..]); }
    }
  }
}
