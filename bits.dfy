/**
 * Bit-level helpers shared by the serialisers of the firmware: the SPI master
 * shifts bytes out most significant bit first, the diagnostic UART least
 * significant bit first. A byte of the PIC is a `bv8`; every shift below is by
 * a literal amount, as in the C code.
 */
module Bits {

  /** The mask that selects bit `k` of a byte, bit 0 being the least significant one. */
  function Mask(k: nat): bv8
    requires k < 8
  {
    if k == 0 then 0x01 else if k == 1 then 0x02 else if k == 2 then 0x04
    else if k == 3 then 0x08 else if k == 4 then 0x10 else if k == 5 then 0x20
    else if k == 6 then 0x40 else 0x80
  }

  /** Bit `k` of `b`. */
  predicate Bit(b: bv8, k: nat)
    requires k < 8
  {
    b & Mask(k) != 0
  }

  /** The one-bit value a line level contributes to a shift register. */
  function BitValue(x: bool): bv8
  {
    if x then 1 else 0
  }

  /** The bits of `b` in the order SPI puts them on the wire: bit 7 first. */
  function MsbBits(b: bv8): (s: seq<bool>)
    ensures |s| == 8
  {
    seq(8, i requires 0 <= i < 8 => Bit(b, 7 - i))
  }

  /** The bits of `b` in the order the UART puts them on the line: bit 0 first. */
  function LsbBits(b: bv8): (s: seq<bool>)
    ensures |s| == 8
  {
    seq(8, i requires 0 <= i < 8 => Bit(b, i))
  }

  /**
   * The content of a byte-wide shift register into which the levels of `s`
   * are shifted from the right, first level first (`r = (r << 1) | bit`).
   */
  function FromMsbBits(s: seq<bool>): bv8
  {
    if s == [] then 0 else (FromMsbBits(s[..|s| - 1]) << 1) | BitValue(s[|s| - 1])
  }

  /** The byte whose bits, least significant first, are the levels of `s`. */
  function FromLsbBits(s: seq<bool>): bv8
  {
    if s == [] then 0 else (FromLsbBits(s[1..]) << 1) | BitValue(s[0])
  }

  /** Two bytes that agree on every bit are equal. */
  lemma BitsDetermineByte(x: bv8, y: bv8)
    requires forall k :: 0 <= k < 8 ==> Bit(x, k) == Bit(y, k)
    ensures x == y
  {
    assert Bit(x, 0) == Bit(y, 0) && Bit(x, 1) == Bit(y, 1);
    assert Bit(x, 2) == Bit(y, 2) && Bit(x, 3) == Bit(y, 3);
    assert Bit(x, 4) == Bit(y, 4) && Bit(x, 5) == Bit(y, 5);
    assert Bit(x, 6) == Bit(y, 6) && Bit(x, 7) == Bit(y, 7);
  }

  /** Shifting left by one moves bit `k` to bit `k + 1`. */
  lemma ShiftLeftBit(x: bv8, k: nat)
    requires k < 7
    ensures Bit(x << 1, k + 1) == Bit(x, k)
  {
  }

  /** A level shifted in from the right lands in bit 0. */
  lemma ShiftInLow(x: bv8, v: bool)
    ensures Bit((x << 1) | BitValue(v), 0) == v
  {
  }

  /** Shifting in a level moves the old bit `k` to bit `k + 1`. */
  lemma ShiftInHigh(x: bv8, v: bool, k: nat)
    requires k < 7
    ensures Bit((x << 1) | BitValue(v), k + 1) == Bit(x, k)
  {
  }

  /** The level shifted in `j`-th of `k` sits at bit `k - 1 - j`: the first one ends up highest. */
  lemma {:induction false} MsbSampleBit(s: seq<bool>, k: nat, j: nat)
    requires j < k <= |s| && k <= 8
    ensures Bit(FromMsbBits(s[..k]), k - 1 - j) == s[j]
  {
    assert s[..k][..k - 1] == s[..k - 1];
    var p := FromMsbBits(s[..k - 1]);
    if j == k - 1 {
      ShiftInLow(p, s[k - 1]);
    } else {
      MsbSampleBit(s, k - 1, j);
      ShiftInHigh(p, s[k - 1], k - 2 - j);
    }
  }

  /** Shifting in MSB first the bits of a byte rebuilds the byte. */
  lemma MsbRoundTrip(b: bv8)
    ensures FromMsbBits(MsbBits(b)) == b
  {
    var s := MsbBits(b);
    assert s[..8] == s;
    forall k | 0 <= k < 8
      ensures Bit(FromMsbBits(s), k) == Bit(b, k)
    {
      MsbSampleBit(s, 8, 7 - k);
    }
    BitsDetermineByte(FromMsbBits(s), b);
  }

  /** Eight levels shifted in MSB first are exactly the MSB-first bits of the result. */
  lemma SamplesRoundTrip(s: seq<bool>)
    requires |s| == 8
    ensures MsbBits(FromMsbBits(s)) == s
  {
    assert s[..8] == s;
    forall j | 0 <= j < 8
      ensures MsbBits(FromMsbBits(s))[j] == s[j]
    {
      MsbSampleBit(s, 8, j);
    }
  }

  /** Bit `k` of the byte rebuilt LSB first from `s` is `s[k]`. */
  lemma {:induction false} LsbLevelAt(s: seq<bool>, k: nat)
    requires k < |s| <= 8
    ensures Bit(FromLsbBits(s), k) == s[k]
  {
    if k == 0 {
      ShiftInLow(FromLsbBits(s[1..]), s[0]);
    } else {
      LsbLevelAt(s[1..], k - 1);
      ShiftInHigh(FromLsbBits(s[1..]), s[0], k - 1);
    }
  }

  /** Reading eight levels least significant first rebuilds the byte. */
  lemma LsbRoundTrip(b: bv8)
    ensures FromLsbBits(LsbBits(b)) == b
  {
    forall k | 0 <= k < 8
      ensures Bit(FromLsbBits(LsbBits(b)), k) == Bit(b, k)
    {
      LsbLevelAt(LsbBits(b), k);
    }
    BitsDetermineByte(FromLsbBits(LsbBits(b)), b);
  }
}
