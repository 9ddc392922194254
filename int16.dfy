/**
 * The 16-bit signed arithmetic of mouse.c: the pending deltas are `int16_t`,
 * assembled from two register bytes and adjusted by gesture and calibration
 * steps. On the PIC (SDCC) `int` is 16 bits wide and a value stored into an
 * `int16_t` keeps its low 16 bits, read as two's complement.
 */
module Int16 {

  predicate InRange(x: int)
  {
    -32768 <= x < 32768
  }

  /** The value an `int16_t` holds after storing the integer `x`: `x` modulo 2^16, as two's complement. */
  function Wrap16(x: int): (r: int)
    ensures InRange(r)
    ensures (r - x) % 65536 == 0
    ensures InRange(x) ==> r == x
  {
    (x + 32768) % 65536 - 32768
  }

  /** Storing after every step or once at the end gives the same `int16_t`. */
  lemma WrapAdd(a: int, b: int)
    ensures Wrap16(Wrap16(a) + b) == Wrap16(a + b)
  {
    var w := Wrap16(a);
    var k := (a + 32768) / 65536;
    assert w == a - 65536 * k;
    WrapShift(a + b, k);
  }

  /** Shifting by a multiple of 2^16 does not change the stored value. */
  lemma WrapShift(x: int, k: int)
    ensures Wrap16(x - 65536 * k) == Wrap16(x)
  {
    ModShift(x + 32768, k);
  }

  lemma ModShift(x: int, k: int)
    ensures (x - 65536 * k) % 65536 == x % 65536
  {
  }

  /** The 16-bit word `(uint16_t)lo | ((uint16_t)hi << 8)`. */
  function Word(hi: bv8, lo: bv8): bv16
  {
    (lo as bv16) | ((hi as bv16) << 8)
  }

  /** The word read as an `int16_t`. */
  function Signed16(w: bv16): int
  {
    TwosComplement(w as int)
  }

  /** The two's complement reading of an unsigned 16-bit value `u`. */
  function TwosComplement(u: int): (r: int)
    requires 0 <= u < 0x10000
    ensures InRange(r)
    ensures (r - u) % 0x10000 == 0
  {
    if u < 0x8000 then u else u - 0x10000
  }

  /** The `int16_t` whose high byte is `hi` and low byte is `lo`. */
  function Delta(hi: bv8, lo: bv8): int
  {
    TwosComplement(hi as int * 256 + lo as int)
  }

  /** Read as `int16_t`, the word is `Delta` of its two bytes. */
  lemma SignedWord(hi: bv8, lo: bv8)
    ensures Signed16(Word(hi, lo)) == Delta(hi, lo)
  {
    WordValue(hi, lo);
  }

  /** The word holds the high byte above the low byte. */
  lemma WordValue(hi: bv8, lo: bv8)
    ensures Word(hi, lo) as int == hi as int * 256 + lo as int
  {
    var h, l := hi as bv16, lo as bv16;
    OrIsSum(h, l);
    SumValue(h, l);
    Widen(hi);
    Widen(lo);
  }

  /** The two bytes occupy disjoint bits of the word, so OR adds them. */
  lemma OrIsSum(h: bv16, l: bv16)
    requires h < 256 && l < 256
    ensures l | (h << 8) == l + h * 256
  {
  }

  lemma SumValue(h: bv16, l: bv16)
    requires h < 256 && l < 256
    ensures (l + h * 256) as int == l as int + h as int * 256
  {
  }

  lemma Widen(b: bv8)
    ensures (b as bv16) as int == b as int
  {
  }

  /** The low byte of a 16-bit two's complement value. */
  function LowByte(d: int): nat
  {
    d % 256
  }

  /** The high byte of a 16-bit two's complement value. */
  function HighByte(d: int): nat
  {
    (d % 65536) / 256
  }

  /**
   * The delta is the two's complement number whose bytes are `hi` and `lo`:
   * it is in range, its high and low byte give the register bytes back, and
   * it is negative exactly when bit 7 of the high byte is set.
   */
  lemma DeltaBytes(hi: bv8, lo: bv8)
    ensures InRange(Delta(hi, lo))
    ensures HighByte(Delta(hi, lo)) == hi as int && LowByte(Delta(hi, lo)) == lo as int
    ensures Delta(hi, lo) < 0 <==> hi as int >= 0x80
  {
    var h, l := hi as int, lo as int;
    var d := Delta(hi, lo);
    assert d == TwosComplement(h * 256 + l);
    TwosComplementBytes(h, l, d);
  }

  lemma TwosComplementBytes(h: int, l: int, d: int)
    requires 0 <= h < 256 && 0 <= l < 256
    requires d == TwosComplement(h * 256 + l)
    ensures LowByte(d) == l && HighByte(d) == h && (d < 0 <==> h >= 0x80)
  {
    var u := h * 256 + l;
    assert 0 <= u < 0x10000;
    assert d % 0x10000 == u;
    assert u % 256 == l && u / 256 == h;
    assert d % 256 == u % 256;
  }

  /** Every `int16_t` value is the two's complement reading of its high byte above its low byte. */
  lemma BytesDelta(d: int)
    requires InRange(d)
    ensures HighByte(d) < 256 && LowByte(d) < 256
    ensures TwosComplement(HighByte(d) * 256 + LowByte(d)) == d
  {
    var u := d % 0x10000;
    if d >= 0 {
      assert u == d;
    } else {
      assert u == d + 0x10000;
    }
    assert LowByte(d) == u % 256;
    assert HighByte(d) * 256 + LowByte(d) == u;
  }
}
