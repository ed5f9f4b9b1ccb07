/** The byte-level vocabulary of the positional wire format: bytes, little-endian counts and the
    LSB-first null bitfields.  Bit operations are written arithmetically. */
module Wire {

  type byte = b: int | 0 <= b < 256
  type bytes = seq<byte>

  const U32_LIMIT: nat := 0x1_0000_0000

  /** A parser's answer: it failed, or it produced a value and left `rest` unread. */
  datatype Decoded<+T> = Err | Ok(val: T, rest: bytes)

  function Take(s: bytes, n: nat): (r: Decoded<bytes>)
    ensures r.Ok? <==> n <= |s|
    ensures r.Ok? ==> |r.val| == n && s == r.val + r.rest
  {
    if n > |s| then Err else Ok(s[..n], s[n..])
  }

  // ----- little-endian 32-bit counts -----

  function U32(n: nat): (r: bytes)
    requires n < U32_LIMIT
    ensures |r| == 4
  {
    [n % 256, n / 256 % 256, n / 256 / 256 % 256, n / 256 / 256 / 256]
  }

  function Horner(a: int, b: int): int { a + 256 * b }

  function TakeU32(s: bytes): (r: Decoded<nat>)
    ensures r.Ok? <==> |s| >= 4
    ensures r.Ok? ==> r.val < U32_LIMIT && r.rest == s[4..]
  {
    if |s| < 4 then Err else Ok(Horner(s[0], Horner(s[1], Horner(s[2], s[3]))), s[4..])
  }

  lemma TakeU32OfU32(n: nat, s: bytes)
    requires n < U32_LIMIT
    ensures TakeU32(U32(n) + s) == Ok(n, s)
  {
    assert (U32(n) + s)[4..] == s;
    assert (U32(n) + s)[..4] == U32(n);
  }

  lemma HornerInverse(a: int, b: int)
    requires 0 <= a < 256
    ensures Horner(a, b) % 256 == a && Horner(a, b) / 256 == b
  {
  }

  lemma U32OfTakeU32(s: bytes)
    requires |s| >= 4
    ensures U32(TakeU32(s).val) == s[..4]
  {
    HornerInverse(s[2], s[3]);
    HornerInverse(s[1], Horner(s[2], s[3]));
    HornerInverse(s[0], Horner(s[1], Horner(s[2], s[3])));
  }

  // ----- null bitfields -----

  function Pow2(n: nat): (r: nat)
    ensures r > 0
  {
    if n == 0 then 1 else 2 * Pow2(n - 1)
  }

  predicate Bit(b: nat, i: nat)
  {
    if i == 0 then b % 2 == 1 else Bit(b / 2, i - 1)
  }

  function BitfieldBytes(n: nat): (r: nat)
    ensures n <= 8 * r < n + 8
  {
    (n + 7) / 8
  }

  predicate NullBit(bf: bytes, i: nat)
    requires i / 8 < |bf|
  {
    Bit(bf[i / 8], i % 8)
  }

  /** The first `n` null flags of a bitfield. */
  function Flags(bf: bytes, n: nat): (r: seq<bool>)
    requires |bf| == BitfieldBytes(n)
    ensures |r| == n
  {
    seq(n, i requires 0 <= i < n => NullBit(bf, i))
  }

  predicate FlagAt(flags: seq<bool>, i: nat) { i < |flags| && flags[i] }

  /** The `n` flags from `start` on, packed LSB first; flags past the end read as zero bits. */
  function PackFrom(flags: seq<bool>, start: nat, n: nat): (r: nat)
    ensures r < Pow2(n)
    decreases n
  {
    if n == 0 then 0
    else (if FlagAt(flags, start) then 1 else 0) + 2 * PackFrom(flags, start + 1, n - 1)
  }

  function PackByte(flags: seq<bool>, k: nat): byte
  {
    assert Pow2(8) == 256 by { assert Pow2(4) == 16; }
    PackFrom(flags, 8 * k, 8)
  }

  /** The bitfield that holds `flags`, its padding bits zero. */
  function Pack(flags: seq<bool>): (r: bytes)
    ensures |r| == BitfieldBytes(|flags|)
  {
    seq(BitfieldBytes(|flags|), k requires 0 <= k < BitfieldBytes(|flags|) => PackByte(flags, k))
  }

  lemma {:induction false} PackFromBit(flags: seq<bool>, start: nat, n: nat, i: nat)
    requires i < n
    ensures Bit(PackFrom(flags, start, n), i) == FlagAt(flags, start + i)
    decreases n
  {
    if i > 0 {
      PackFromBit(flags, start + 1, n - 1, i - 1);
    }
  }

  lemma FlagsOfPack(flags: seq<bool>)
    ensures Flags(Pack(flags), |flags|) == flags
  {
    hide Bit, PackFrom;
    var bf := Pack(flags);
    forall i | 0 <= i < |flags|
      ensures NullBit(bf, i) == flags[i]
    {
      PackFromBit(flags, 8 * (i / 8), 8, i % 8);
    }
  }
}
