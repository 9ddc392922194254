/**
 * The diagnostic serial output (uart.c): a bit-banged transmitter on one pin,
 * 9600 baud, 8 data bits, no parity, one stop bit. `Line` holds the level of
 * the TX pin and every level the firmware writes to it, in order; the delays
 * that give each level its 104 microseconds are not modelled.
 */
module Uart {
  import opened Bits

  datatype Option<T> = None | Some(value: T)

  // ---------------------------------------------------------------------------
  // Frames

  /** The ten line levels of one character: start bit LOW, the data bits least significant first, stop bit HIGH. */
  function Frame(c: bv8): seq<bool>
  {
    [false] + LsbBits(c) + [true]
  }

  /** Ten levels that start LOW and end HIGH, as a receiver expects a character. */
  predicate WellFramed(f: seq<bool>)
  {
    |f| == 10 && !f[0] && f[9]
  }

  /** The character a receiver reads from a frame: the eight levels between start and stop bit, least significant first. */
  function Received(f: seq<bool>): bv8
    requires |f| == 10
  {
    FromLsbBits(f[1..9])
  }

  /** Every frame is well formed, leaves the line HIGH (idle), and is read back as the character sent. */
  lemma FrameRoundTrip(c: bv8)
    ensures |Frame(c)| == 10 && WellFramed(Frame(c))
    ensures Frame(c)[1..9] == LsbBits(c)
    ensures Received(Frame(c)) == c
  {
    assert Frame(c)[1..9] == LsbBits(c);
    LsbRoundTrip(c);
  }

  /** Every well-formed frame is the frame of the character it is read as. */
  lemma ReceivedRoundTrip(f: seq<bool>)
    requires WellFramed(f)
    ensures Frame(Received(f)) == f
  {
    var data := f[1..9];
    LsbSamplesRoundTrip(data);
    assert f == [f[0]] + data + [f[9]];
  }

  /** Eight levels read least significant first give a byte whose bits are those levels. */
  lemma LsbSamplesRoundTrip(s: seq<bool>)
    requires |s| == 8
    ensures LsbBits(FromLsbBits(s)) == s
  {
    forall k | 0 <= k < 8
      ensures LsbBits(FromLsbBits(s))[k] == s[k]
    {
      LsbLevelAt(s, k);
    }
  }

  /** The frames of the characters `cs`, one after the other. */
  function Frames(cs: seq<bv8>): (f: seq<bool>)
    ensures |f| == 10 * |cs|
  {
    if cs == [] then [] else Frames(cs[..|cs| - 1]) + Frame(cs[|cs| - 1])
  }

  /** What a receiver reads from a line that carries whole frames. */
  function Decode(f: seq<bool>): seq<bv8>
    requires |f| % 10 == 0
  {
    if f == [] then [] else Decode(f[..|f| - 10]) + [Received(f[|f| - 10..])]
  }

  /** A receiver reads back exactly the characters sent, in order. */
  lemma {:induction false} FramesRoundTrip(cs: seq<bv8>)
    ensures Decode(Frames(cs)) == cs
  {
    if cs != [] {
      var n := |cs| - 1;
      var f := Frames(cs);
      assert f[..|f| - 10] == Frames(cs[..n]);
      assert f[|f| - 10..] == Frame(cs[n]);
      FramesRoundTrip(cs[..n]);
      FrameRoundTrip(cs[n]);
      assert cs == cs[..n] + [cs[n]];
    }
  }

  /** The frames of a prefix one longer are the frames of the prefix and then the next frame. */
  lemma FramesSnoc(cs: seq<bv8>, i: nat)
    requires i < |cs|
    ensures Frames(cs[..i + 1]) == Frames(cs[..i]) + Frame(cs[i])
  {
    assert cs[..i + 1][..i] == cs[..i];
  }

  /** Two characters are sent as their two frames. */
  lemma FramesPair(x: bv8, y: bv8)
    ensures Frames([x, y]) == Frame(x) + Frame(y)
  {
    assert [x, y][..1] == [x];
    assert [x][..0] == [];
  }

  // ---------------------------------------------------------------------------
  // The data register of `UART_putc`

  /** The data register after `i` right shifts. */
  function ShiftedRight(c: bv8, i: nat): bv8
  {
    if i == 0 then c else ShiftedRight(c, i - 1) >> 1
  }

  /** Shifting right by one moves bit `k + 1` to bit `k`. */
  lemma ShiftRightBit(x: bv8, k: nat)
    requires k < 7
    ensures Bit(x >> 1, k) == Bit(x, k + 1)
  {
  }

  /** After `i` shifts, bit `i + k` of the original byte sits at bit `k`. */
  lemma {:induction false} ShiftedRightBit(c: bv8, i: nat, k: nat)
    requires i + k < 8
    ensures Bit(ShiftedRight(c, i), k) == Bit(c, i + k)
  {
    if i > 0 {
      ShiftedRightBit(c, i - 1, k + 1);
      ShiftRightBit(ShiftedRight(c, i - 1), k);
    }
  }

  /** The first `i + 1` data levels are the first `i` and then bit `i`. */
  lemma LsbPrefixStep(c: bv8, i: nat)
    requires i < 8
    ensures LsbBits(c)[..i + 1] == LsbBits(c)[..i] + [Bit(c, i)]
  {
    var s := LsbBits(c);
    assert s[i] == Bit(c, i);
    assert s[..i + 1] == s[..i] + [s[i]];
  }

  /** `(u8CharP & 0x01)` is bit 0. */
  lemma LowBit(x: bv8)
    ensures (x & 0x01 != 0) == Bit(x, 0)
  {
  }

  // ---------------------------------------------------------------------------
  // Hexadecimal digits of `UART_putb`

  /** The table `aHex`: the ASCII codes of '0' to '9' and 'A' to 'F'. */
  const HexTable: seq<bv8> :=
    [0x30, 0x31, 0x32, 0x33, 0x34, 0x35, 0x36, 0x37, 0x38, 0x39, 0x41, 0x42, 0x43, 0x44, 0x45, 0x46]

  /** The two characters `UART_putb` sends for `b`: the digit of the high nibble, then that of the low nibble. */
  function Hex(b: bv8): (r: seq<bv8>)
    ensures |r| == 2 && r[0] in HexTable && r[1] in HexTable
  {
    Nibbles(b);
    [HexTable[(b >> 4) as int], HexTable[(b & 0x0f) as int]]
  }

  /** The value of an uppercase hexadecimal digit, or None for any other character. */
  function DigitValue(c: bv8): Option<nat>
  {
    if 0x30 <= c <= 0x39 then Some((c - 0x30) as nat)
    else if 0x41 <= c <= 0x46 then Some((c - 0x41) as nat + 10)
    else None
  }

  /** Both table indices are nibbles, and they split the byte: high nibble times 16 plus low nibble. */
  lemma Nibbles(b: bv8)
    ensures (b >> 4) as int < 16 && (b & 0x0f) as int < 16
    ensures (b >> 4) as int * 16 + (b & 0x0f) as int == b as int
  {
  }

  /** Every table entry is an uppercase hexadecimal digit whose value is its index. */
  lemma HexTableDigits(n: nat)
    requires n < 16
    ensures DigitValue(HexTable[n]) == Some(n)
  {
  }

  /** A character with a digit value is the table entry at that value: the table holds every digit. */
  lemma DigitsAreTable(c: bv8)
    requires DigitValue(c).Some?
    ensures DigitValue(c).value < 16 && HexTable[DigitValue(c).value] == c
  {
  }

  /** Hex round trip: the two digits sent for `b` read back as `b`, high digit first. */
  lemma HexRoundTrip(b: bv8)
    ensures DigitValue(Hex(b)[0]).Some? && DigitValue(Hex(b)[1]).Some?
    ensures DigitValue(Hex(b)[0]).value * 16 + DigitValue(Hex(b)[1]).value == b as int
  {
    Nibbles(b);
    HexTableDigits((b >> 4) as int);
    HexTableDigits((b & 0x0f) as int);
  }

  // ---------------------------------------------------------------------------
  // Strings of `UART_puts`

  /** The characters of a zero-terminated string: those before the first NUL. */
  function UntilNul(s: seq<bv8>): (r: seq<bv8>)
    ensures |r| <= |s| && r == s[..|r|]
    ensures forall j :: 0 <= j < |r| ==> r[j] != 0
    ensures |r| < |s| ==> s[|r|] == 0
  {
    if s == [] || s[0] == 0 then [] else [s[0]] + UntilNul(s[1..])
  }

  // ---------------------------------------------------------------------------
  // The transmitter

  class Line {
    /** The level of the TX pin. */
    var level: bool
    /** Every level written to the TX pin, in order. */
    var levels: seq<bool>

    /** The pin at power-on, before any character is sent. */
    constructor (idle: bool)
      ensures level == idle && levels == []
    {
      level := idle;
      levels := [];
    }

    method SetLevel(high: bool)
      modifies this
      ensures level == high && levels == old(levels) + [high]
    {
      level := high;
      levels := levels + [high];
    }

    /** `UART_putc`: one frame for `c`, leaving the line HIGH (idle). */
    method Putc(c: bv8)
      modifies this
      ensures levels == old(levels) + Frame(c)
      ensures level
    {
      SetLevel(false);
      var data := c;
      var bitNum := 0;
      while bitNum < 8
        invariant 0 <= bitNum <= 8
        invariant data == ShiftedRight(c, bitNum)
        invariant levels == old(levels) + [false] + LsbBits(c)[..bitNum]
      {
        LowBit(data);
        ShiftedRightBit(c, bitNum, 0);
        SetLevel(data & 0x01 != 0);
        LsbPrefixStep(c, bitNum);
        data := data >> 1;
        bitNum := bitNum + 1;
      }
      SetLevel(true);
      assert LsbBits(c)[..8] == LsbBits(c);
      assert levels == old(levels) + ([false] + LsbBits(c) + [true]);
    }

    /**
     * `UART_puts`: the frames of the characters before the first NUL, in
     * order, and nothing else. The string is NUL-terminated, as C strings
     * are.
     */
    method Puts(s: seq<bv8>)
      requires exists j :: 0 <= j < |s| && s[j] == 0
      modifies this
      ensures levels == old(levels) + Frames(UntilNul(s))
      ensures level == if UntilNul(s) == [] then old(level) else true
    {
      ghost var text := UntilNul(s);
      var i := 0;
      while s[i] != 0
        invariant 0 <= i <= |text| < |s|
        invariant levels == old(levels) + Frames(text[..i])
        invariant level == if i == 0 then old(level) else true
        decreases |text| - i
      {
        FramesSnoc(text, i);
        Putc(s[i]);
        i := i + 1;
      }
      assert text[..i] == text;
    }

    /** `UART_putb`: the byte as two uppercase hexadecimal digits, high nibble first. */
    method Putb(b: bv8)
      modifies this
      ensures levels == old(levels) + Frames(Hex(b))
      ensures level
    {
      Nibbles(b);
      var high, low := HexTable[(b >> 4) as int], HexTable[(b & 0x0f) as int];
      Putc(high);
      Putc(low);
      FramesPair(high, low);
    }
  }
}
