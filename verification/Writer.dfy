/** `WriteBuffer` and the part of `PositionalWriter` that patches null bits into bytes that are
    already written. */
module Writer {
  import opened Wire
  import RowReader

  class WriteBuffer {
    var data: bytes

    constructor ()
      ensures data == []
    {
      data := [];
    }

    method Append(more: bytes)
      modifies this
      ensures data == old(data) + more
    {
      data := data + more;
    }

    method AppendU32(n: nat)
      requires n < U32_LIMIT
      modifies this
      ensures data == old(data) + U32(n)
    {
      data := data + U32(n);
    }

    /** Room for the null bits of `n` slots; returns where it starts. */
    method BeginBits(n: nat) returns (pos: nat)
      modifies this
      ensures pos == |old(data)| && data == Layout(old(data), seq(n, _ => false), [])
    {
      pos := |data|;
      NoBitsSet(n);
      assert seq(BitfieldBytes(n), _ => 0 as byte) + [] == seq(BitfieldBytes(n), _ => 0 as byte);
      data := data + seq(BitfieldBytes(n), _ => 0 as byte);
    }

    /** ORs one bit into an earlier byte. */
    method PatchBit(offset: nat, i: nat)
      requires offset < |data| && i < 8
      modifies this
      ensures data == old(data)[offset := OrBit(old(data)[offset], i)]
    {
      data := data[offset := OrBit(data[offset], i)];
    }

    /** Marks slot `j` of the bitfield at `pos` null, whatever has been written since. */
    method SetNull(pos: nat, j: nat, ghost pre: bytes, ghost flags: seq<bool>, ghost payload: bytes)
      requires data == Layout(pre, flags, payload) && pos == |pre| && j < |flags| && !flags[j]
      modifies this
      ensures data == Layout(pre, flags[j := true], payload)
    {
      hide Layout, OrBit;
      PatchedLayout(pre, flags, payload, j);
      PatchBit(pos + j / 8, j % 8);
    }
  }

  /** What a struct or list body looks like while it is written: the bytes before it, its null bits,
      and the payloads so far. */
  ghost function Layout(pre: bytes, flags: seq<bool>, payload: bytes): bytes
  {
    pre + (Pack(flags) + payload)
  }

  /** `b | (1 << i)`. */
  function OrBit(b: byte, i: nat): byte
    requires i < 8
  {
    assert Pow2(8) == 256 by { assert Pow2(4) == 16; }
    if Bit(b, i) then b else ClearBitRoom(b, i, 8); b + Pow2(i)
  }

  lemma {:induction false} ClearBitRoom(b: nat, i: nat, n: nat)
    requires b < Pow2(n) && i < n && !Bit(b, i)
    ensures b + Pow2(i) < Pow2(n)
    decreases n
  {
    assert b == 2 * (b / 2) + b % 2 && Pow2(n) == 2 * Pow2(n - 1);
    if i > 0 {
      ClearBitRoom(b / 2, i - 1, n - 1);
      assert Pow2(i) == 2 * Pow2(i - 1);
    }
  }

  lemma NoBitsSet(n: nat)
    ensures Pack(seq(n, _ => false)) == seq(BitfieldBytes(n), _ => 0 as byte)
  {
    hide PackFrom;
    var flags := seq(n, _ => false);
    forall k | 0 <= k < BitfieldBytes(n)
      ensures Pack(flags)[k] == 0
    {
      RowReader.PackNothing(flags, 8 * k, 8);
    }
  }

  lemma {:induction false} SetFlag(flags: seq<bool>, start: nat, n: nat, j: nat)
    requires j < |flags| && !flags[j]
    ensures PackFrom(flags[j := true], start, n)
         == PackFrom(flags, start, n) + if start <= j < start + n then Pow2(j - start) else 0
    decreases n
  {
    if n > 0 { SetFlag(flags, start + 1, n - 1, j); }
  }

  lemma PatchedBits(flags: seq<bool>, j: nat)
    requires j < |flags| && !flags[j]
    ensures |Pack(flags)| == BitfieldBytes(|flags|) && j / 8 < |Pack(flags)|
    ensures Pack(flags[j := true]) == Pack(flags)[j / 8 := OrBit(Pack(flags)[j / 8], j % 8)]
  {
    hide PackFrom, Bit;
    var k := j / 8;
    assert 8 * k <= j < 8 * k + 8 && j - 8 * k == j % 8;
    PackFromBit(flags, 8 * k, 8, j % 8);
    var now, want := Pack(flags[j := true]), Pack(flags)[k := OrBit(Pack(flags)[k], j % 8)];
    forall i | 0 <= i < |now|
      ensures now[i] == want[i]
    {
      SetFlag(flags, 8 * i, 8, j);
      if i != k { assert !(8 * i <= j < 8 * i + 8); }
    }
  }

  lemma PatchedLayout(pre: bytes, flags: seq<bool>, payload: bytes, j: nat)
    requires j < |flags| && !flags[j]
    ensures var data, at := Layout(pre, flags, payload), |pre| + j / 8;
            && at < |data| && Layout(pre, flags[j := true], payload) == data[at := OrBit(data[at], j % 8)]
  {
    hide Pack, OrBit;
    PatchedBits(flags, j);
    var bits, k := Pack(flags), j / 8;
    assert (pre + (bits + payload))[|pre| + k] == bits[k];
  }
}
