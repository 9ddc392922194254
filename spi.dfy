/**
 * The bit-banged SPI master (spi.c).
 *
 * The PIC drives the SCLK, MOSI and NCS latches and samples the MISO pin, all
 * from software. `Bus` holds the three latches and the history of every pin
 * operation in the order the firmware performs it (`wire`). What the sensor
 * puts on MISO is the environment: an unbounded stream of levels `miso`, of
 * which the first `sampled` have been read.
 */
module Spi {
  import opened Bits

  /** One pin-level operation of the firmware. */
  datatype Signal =
    | Ncs(high: bool)   // the chip-select latch is written
    | Sclk(high: bool)  // the clock latch is written
    | Mosi(high: bool)  // the data-out latch is written
    | Miso(high: bool)  // the data-in pin is sampled and reads `high`
    | Wait(us: nat)     // a busy-wait of `us` microseconds

  /** The four lines of the bus, to select the levels of one of them from a trace. */
  datatype Pin = NcsPin | SclkPin | MosiPin | MisoPin

  predicate OnPin(s: Signal, p: Pin)
  {
    match s
    case Ncs(_) => p == NcsPin
    case Sclk(_) => p == SclkPin
    case Mosi(_) => p == MosiPin
    case Miso(_) => p == MisoPin
    case Wait(_) => false
  }

  /** The level signal `s` puts on (or reads from) pin `p`, if it concerns that pin. */
  function LevelOn(s: Signal, p: Pin): seq<bool>
  {
    if OnPin(s, p) then [s.high] else []
  }

  /** The levels written to (or, for MISO, read from) pin `p` in trace `w`, in order. */
  function Levels(w: seq<Signal>, p: Pin): seq<bool>
  {
    if w == [] then [] else Levels(w[..|w| - 1], p) + LevelOn(w[|w| - 1], p)
  }

  /** The eight MISO levels the sensor presents from sample number `k` on. */
  function Window(line: nat -> bool, k: nat): (s: seq<bool>)
    ensures |s| == 8
    ensures forall i :: 0 <= i < 8 ==> s[i] == line(k + i)
  {
    seq(8, i requires 0 <= i < 8 => line(k + i))
  }

  /** One iteration of the transfer loop: clock low, drive MOSI, sample MISO, clock high. */
  function Cycle(out: bool, sample: bool): seq<Signal>
  {
    [Sclk(false), Mosi(out), Miso(sample), Sclk(true)]
  }

  /** The cycles that drive the levels `outs` while sampling `ins`, first cycle first. */
  function Cycles(outs: seq<bool>, ins: seq<bool>): (w: seq<Signal>)
    requires |outs| == |ins|
    ensures |w| == 4 * |outs|
  {
    if outs == [] then []
    else Cycles(outs[..|outs| - 1], ins[..|ins| - 1]) + Cycle(outs[|outs| - 1], ins[|ins| - 1])
  }

  /** The pin activity of one byte transfer that sends `out` while sampling `ins`. */
  function Waveform(out: bv8, ins: seq<bool>): (w: seq<Signal>)
    requires |ins| == 8
    ensures |w| == 32
  {
    Cycles(MsbBits(out), ins)
  }

  /** `n` clock periods, each the clock driven low and then high. */
  function ClockPulses(n: nat): (s: seq<bool>)
    ensures |s| == 2 * n
  {
    if n == 0 then [] else ClockPulses(n - 1) + [false, true]
  }

  class Bus {
    var ncs: bool
    var sclk: bool
    var mosi: bool
    const miso: nat -> bool
    var sampled: nat
    var wire: seq<Signal>

    /** The bus at power-on: latch levels as found, no pin operation done yet. */
    constructor (line: nat -> bool, ncs0: bool, sclk0: bool, mosi0: bool)
      ensures miso == line && ncs == ncs0 && sclk == sclk0 && mosi == mosi0
      ensures sampled == 0 && wire == []
    {
      miso := line;
      ncs, sclk, mosi := ncs0, sclk0, mosi0;
      sampled := 0;
      wire := [];
    }

    method SetSclk(level: bool)
      modifies this
      ensures sclk == level && wire == old(wire) + [Sclk(level)]
      ensures ncs == old(ncs) && mosi == old(mosi) && sampled == old(sampled)
    {
      sclk := level;
      wire := wire + [Sclk(level)];
    }

    method SetMosi(level: bool)
      modifies this
      ensures mosi == level && wire == old(wire) + [Mosi(level)]
      ensures ncs == old(ncs) && sclk == old(sclk) && sampled == old(sampled)
    {
      mosi := level;
      wire := wire + [Mosi(level)];
    }

    method SetNcs(level: bool)
      modifies this
      ensures ncs == level && wire == old(wire) + [Ncs(level)]
      ensures sclk == old(sclk) && mosi == old(mosi) && sampled == old(sampled)
    {
      ncs := level;
      wire := wire + [Ncs(level)];
    }

    method SampleMiso() returns (level: bool)
      modifies this
      ensures level == miso(old(sampled)) && sampled == old(sampled) + 1
      ensures wire == old(wire) + [Miso(level)]
      ensures ncs == old(ncs) && sclk == old(sclk) && mosi == old(mosi)
    {
      level := miso(sampled);
      sampled := sampled + 1;
      wire := wire + [Miso(level)];
    }

    /** A busy-wait of `us` microseconds: no pin changes. */
    method Delay(us: nat)
      modifies this
      ensures wire == old(wire) + [Wait(us)]
      ensures ncs == old(ncs) && sclk == old(sclk) && mosi == old(mosi) && sampled == old(sampled)
    {
      wire := wire + [Wait(us)];
    }

    /**
     * One iteration of the loop of `SPI_bitBangData`: clock low, the top bit of
     * `data` onto MOSI, both shift registers move left, the MISO level enters
     * bit 0 of `r`, clock high.
     */
    method ClockBit(data: bv8, r: bv8) returns (data': bv8, r': bv8)
      modifies this
      ensures data' == data << 1
      ensures r' == (r << 1) | BitValue(miso(old(sampled)))
      ensures sampled == old(sampled) + 1
      ensures wire == old(wire) + Cycle(data & 0x80 != 0, miso(old(sampled)))
      ensures sclk && mosi == (data & 0x80 != 0) && ncs == old(ncs)
    {
      SetSclk(false);
      SetMosi(data & 0x80 != 0);
      data' := data << 1;
      r' := r << 1;
      var level := SampleMiso();
      r' := r' | BitValue(level);
      SetSclk(true);
    }

    /**
     * `SPI_bitBangData`: eight clock cycles that send `out` MSB first and
     * assemble the eight MISO samples MSB first.
     */
    method BitBangData(out: bv8) returns (r: bv8)
      modifies this
      ensures r == FromMsbBits(Window(miso, old(sampled)))
      ensures sampled == old(sampled) + 8
      ensures wire == old(wire) + Waveform(out, Window(miso, old(sampled)))
      ensures sclk && mosi == Bit(out, 0) && ncs == old(ncs)
    {
      ghost var start := sampled;
      var data := out;
      r := 0;
      var bitNum := 8;
      while bitNum != 0
        invariant 0 <= bitNum <= 8
        invariant data == ShiftedLeft(out, 8 - bitNum) && r == Received(miso, start, 8 - bitNum)
        invariant sampled == start + 8 - bitNum && wire == old(wire) + Clocked(out, miso, start, 8 - bitNum)
        invariant ncs == old(ncs) && (bitNum < 8 ==> sclk && mosi == Bit(out, bitNum))
      {
        NextIteration(out, miso, start, 8 - bitNum, old(wire));
        data, r := ClockBit(data, r);
        bitNum := bitNum - 1;
      }
      ClockedIsWaveform(out, miso, start);
      ReceivedIsWindow(miso, start);
    }

    /** `SPI_transfer`: exactly one `SPI_bitBangData`, nothing added. */
    method Transfer(out: bv8) returns (r: bv8)
      modifies this
      ensures r == FromMsbBits(Window(miso, old(sampled)))
      ensures sampled == old(sampled) + 8
      ensures wire == old(wire) + Waveform(out, Window(miso, old(sampled)))
      ensures sclk && mosi == Bit(out, 0) && ncs == old(ncs)
    {
      r := BitBangData(out);
    }

    /** `SPI_init`: the sensor starts deselected (the pin directions are not modelled). */
    method Init()
      modifies this
      ensures ncs && wire == old(wire) + [Ncs(true)]
      ensures sclk == old(sclk) && mosi == old(mosi) && sampled == old(sampled)
    {
      SetNcs(true);
    }
  }

  /** The byte to send after `i` iterations: shifted left by one per iteration. */
  function ShiftedLeft(out: bv8, i: nat): bv8
  {
    if i == 0 then out else ShiftedLeft(out, i - 1) << 1
  }

  /** After `i` shifts, bit `k` of the original byte sits at bit `k + i`. */
  lemma {:induction false} ShiftedLeftBit(out: bv8, i: nat, k: nat)
    requires k + i < 8
    ensures Bit(ShiftedLeft(out, i), k + i) == Bit(out, k)
  {
    if i > 0 {
      ShiftedLeftBit(out, i - 1, k);
      ShiftLeftBit(ShiftedLeft(out, i - 1), k + i - 1);
    }
  }

  /** What iteration `i` of the transfer loop does to the byte, the shift register and the trace. */
  lemma NextIteration(out: bv8, line: nat -> bool, start: nat, i: nat, w0: seq<Signal>)
    requires i < 8
    ensures ShiftedLeft(out, i) << 1 == ShiftedLeft(out, i + 1)
    ensures (ShiftedLeft(out, i) & 0x80 != 0) == Bit(out, 7 - i)
    ensures (Received(line, start, i) << 1) | BitValue(line(start + i)) == Received(line, start, i + 1)
    ensures w0 + Clocked(out, line, start, i) + Cycle(Bit(out, 7 - i), line(start + i))
      == w0 + Clocked(out, line, start, i + 1)
  {
    ShiftedLeftBit(out, i, 7 - i);
    AppendAssoc(w0, Clocked(out, line, start, i), Cycle(Bit(out, 7 - i), line(start + i)));
  }

  lemma SnocLast<T>(s: seq<T>)
    requires s != []
    ensures s[..|s| - 1] + [s[|s| - 1]] == s
  {
  }

  lemma AppendAssoc<T>(a: seq<T>, b: seq<T>, c: seq<T>)
    ensures (a + b) + c == a + (b + c)
  {
  }

  /** The shift register after the first `i` of the samples `line(start)`, `line(start + 1)`, ... */
  function Received(line: nat -> bool, start: nat, i: nat): bv8
  {
    if i == 0 then 0 else (Received(line, start, i - 1) << 1) | BitValue(line(start + i - 1))
  }

  /** The pin activity of the first `i` iterations of a transfer of `out` sampling from `start` on. */
  function Clocked(out: bv8, line: nat -> bool, start: nat, i: nat): (w: seq<Signal>)
    requires i <= 8
  {
    if i == 0 then [] else Clocked(out, line, start, i - 1) + Cycle(Bit(out, 8 - i), line(start + i - 1))
  }

  lemma {:induction false} ReceivedPrefix(line: nat -> bool, start: nat, i: nat)
    requires i <= 8
    ensures Received(line, start, i) == FromMsbBits(Window(line, start)[..i])
  {
    if i > 0 {
      ReceivedPrefix(line, start, i - 1);
      assert Window(line, start)[..i][..i - 1] == Window(line, start)[..i - 1];
    }
  }

  /** Eight iterations leave the eight samples in the shift register, the first one highest. */
  lemma ReceivedIsWindow(line: nat -> bool, start: nat)
    ensures Received(line, start, 8) == FromMsbBits(Window(line, start))
  {
    ReceivedPrefix(line, start, 8);
    assert Window(line, start)[..8] == Window(line, start);
  }

  lemma {:induction false} ClockedPrefix(out: bv8, line: nat -> bool, start: nat, i: nat)
    requires i <= 8
    ensures Clocked(out, line, start, i) == Cycles(MsbBits(out)[..i], Window(line, start)[..i])
  {
    if i > 0 {
      ClockedPrefix(out, line, start, i - 1);
      var outs, ins := MsbBits(out), Window(line, start);
      CyclesStep(outs, ins, i);
      assert outs[i - 1] == Bit(out, 8 - i);
      assert ins[i - 1] == line(start + i - 1);
    }
  }

  /** The first `i` cycles are the first `i - 1` followed by cycle `i - 1`. */
  lemma CyclesStep(outs: seq<bool>, ins: seq<bool>, i: nat)
    requires |outs| == |ins| && 0 < i <= |outs|
    ensures Cycles(outs[..i], ins[..i]) == Cycles(outs[..i - 1], ins[..i - 1]) + Cycle(outs[i - 1], ins[i - 1])
  {
    assert outs[..i][..i - 1] == outs[..i - 1];
    assert ins[..i][..i - 1] == ins[..i - 1];
  }


  /** Eight iterations produce the waveform of the byte. */
  lemma ClockedIsWaveform(out: bv8, line: nat -> bool, start: nat)
    ensures Clocked(out, line, start, 8) == Waveform(out, Window(line, start))
  {
    ClockedPrefix(out, line, start, 8);
    assert MsbBits(out)[..8] == MsbBits(out);
    assert Window(line, start)[..8] == Window(line, start);
  }

  lemma {:induction false} LevelsAppend(a: seq<Signal>, b: seq<Signal>, p: Pin)
    ensures Levels(a + b, p) == Levels(a, p) + Levels(b, p)
    decreases |b|
  {
    if b == [] {
      assert a + b == a;
    } else {
      var b' := b[..|b| - 1];
      assert (a + b)[..|a + b| - 1] == a + b';
      LevelsAppend(a, b', p);
    }
  }

  /**
   * Cycle `k / 4` of a transfer occupies signals `4 * (k / 4)` to
   * `4 * (k / 4) + 3`, in the order of `Cycle`.
   */
  lemma {:induction false} CyclesAt(outs: seq<bool>, ins: seq<bool>, k: nat)
    requires |outs| == |ins| && k < 4 * |outs|
    ensures Cycles(outs, ins)[k] == Cycle(outs[k / 4], ins[k / 4])[k % 4]
    decreases |outs|
  {
    var n := |outs| - 1;
    var front := Cycles(outs[..n], ins[..n]);
    if k < 4 * n {
      CyclesAt(outs[..n], ins[..n], k);
    } else {
      assert Cycles(outs, ins)[k] == Cycle(outs[n], ins[n])[k - 4 * n];
    }
  }

  lemma LevelsSnoc(w: seq<Signal>, s: Signal, p: Pin)
    ensures Levels(w + [s], p) == Levels(w, p) + LevelOn(s, p)
  {
    assert (w + [s])[..|w|] == w;
  }

  /** One cycle drives MOSI once, samples MISO once, makes one clock period and leaves NCS alone. */
  lemma CycleLevels(out: bool, sample: bool, p: Pin)
    ensures Levels(Cycle(out, sample), p) == CycleLevelsOn(out, sample, p)
  {
    var a, b, c, d := Sclk(false), Mosi(out), Miso(sample), Sclk(true);
    assert [a] == [] + [a];
    assert [a, b] == [a] + [b];
    assert [a, b, c] == [a, b] + [c];
    assert Cycle(out, sample) == [a, b, c] + [d];
    LevelsSnoc([], a, p);
    LevelsSnoc([a], b, p);
    LevelsSnoc([a, b], c, p);
    LevelsSnoc([a, b, c], d, p);
    assert Levels([], p) == [];
    var l := LevelOn(a, p) + LevelOn(b, p) + LevelOn(c, p) + LevelOn(d, p);
    assert Levels(Cycle(out, sample), p) == l;
    match p {
      case NcsPin => assert l == [];
      case SclkPin => assert l == [false] + [true];
      case MosiPin => assert l == [out];
      case MisoPin => assert l == [sample];
    }
  }

  function CycleLevelsOn(out: bool, sample: bool, p: Pin): seq<bool>
  {
    match p
    case MosiPin => [out]
    case MisoPin => [sample]
    case SclkPin => [false, true]
    case NcsPin => []
  }

  /** What a run of cycles puts on each pin: the driven bits, the samples, the clock periods, nothing. */
  function CyclesLevelsOn(outs: seq<bool>, ins: seq<bool>, p: Pin): seq<bool>
  {
    match p
    case MosiPin => outs
    case MisoPin => ins
    case SclkPin => ClockPulses(|outs|)
    case NcsPin => []
  }

  /** The MOSI levels of a run of cycles are the driven bits, the MISO levels the samples. */
  lemma {:induction false} CyclesLevels(outs: seq<bool>, ins: seq<bool>, p: Pin)
    requires |outs| == |ins|
    ensures Levels(Cycles(outs, ins), p) == CyclesLevelsOn(outs, ins, p)
    decreases |outs|
  {
    if outs != [] {
      var n := |outs| - 1;
      CyclesLevels(outs[..n], ins[..n], p);
      CycleLevels(outs[n], ins[n], p);
      LevelsAppend(Cycles(outs[..n], ins[..n]), Cycle(outs[n], ins[n]), p);
      SnocLast(outs);
      SnocLast(ins);
    }
  }

  /**
   * The shape of one byte transfer: eight cycles; in cycle `i` the clock goes
   * low, MOSI carries bit `7 - i` of the byte, MISO is sampled, and only then
   * does the clock go high. So MOSI is set up and MISO sampled while SCLK is
   * low, before the rising edge, and the transfer ends with SCLK high.
   */
  lemma WaveformShape(out: bv8, ins: seq<bool>)
    requires |ins| == 8
    ensures forall k :: 0 <= k < 32 ==>
      Waveform(out, ins)[k] == Cycle(Bit(out, 7 - k / 4), ins[k / 4])[k % 4]
    ensures Waveform(out, ins)[31] == Sclk(true)
  {
    forall k | 0 <= k < 32
      ensures Waveform(out, ins)[k] == Cycle(Bit(out, 7 - k / 4), ins[k / 4])[k % 4]
    {
      CyclesAt(MsbBits(out), ins, k);
    }
  }

  /**
   * On the wire of one transfer: MOSI carries bit 7, bit 6, ..., bit 0 of the
   * byte, MISO is sampled once per cycle, SCLK makes exactly eight low-high
   * periods, and NCS is not touched.
   */
  lemma WaveformLevels(out: bv8, ins: seq<bool>)
    requires |ins| == 8
    ensures Levels(Waveform(out, ins), MosiPin) == MsbBits(out)
    ensures Levels(Waveform(out, ins), MisoPin) == ins
    ensures Levels(Waveform(out, ins), SclkPin) == ClockPulses(8)
    ensures Levels(Waveform(out, ins), NcsPin) == []
  {
    CyclesLevels(MsbBits(out), ins, MosiPin);
    CyclesLevels(MsbBits(out), ins, MisoPin);
    CyclesLevels(MsbBits(out), ins, SclkPin);
    CyclesLevels(MsbBits(out), ins, NcsPin);
  }

  /** What one byte transfer puts on pin `p`. */
  lemma WaveformLevelsOn(out: bv8, ins: seq<bool>, p: Pin)
    requires |ins| == 8
    ensures Levels(Waveform(out, ins), p) == CyclesLevelsOn(MsbBits(out), ins, p)
  {
    CyclesLevels(MsbBits(out), ins, p);
  }

  /** The received byte holds the first sample in bit 7 and the last in bit 0. */
  lemma ReceivedMsbFirst(ins: seq<bool>)
    requires |ins| == 8
    ensures forall i :: 0 <= i < 8 ==> Bit(FromMsbBits(ins), 7 - i) == ins[i]
  {
    SamplesRoundTrip(ins);
  }

  /** Loopback: when every MISO sample equals the MOSI bit just driven, the byte comes back. */
  lemma Loopback(out: bv8, ins: seq<bool>)
    requires |ins| == 8
    requires Levels(Waveform(out, ins), MisoPin) == Levels(Waveform(out, ins), MosiPin)
    ensures FromMsbBits(ins) == out
  {
    WaveformLevels(out, ins);
    MsbRoundTrip(out);
  }

  /** The NCS level after the trace `w`, starting from `initial`: the last level written, if any. */
  function NcsAfter(w: seq<Signal>, initial: bool): bool
  {
    var levels := Levels(w, NcsPin);
    if levels == [] then initial else levels[|levels| - 1]
  }

  /**
   * The sensor is clocked only while it is selected: whenever the trace writes
   * SCLK, NCS (starting at `initial`) is LOW.
   */
  predicate ClocksWhileSelected(w: seq<Signal>, initial: bool)
  {
    forall k :: 0 <= k < |w| && w[k].Sclk? ==> !NcsAfter(w[..k], initial)
  }

  /** A trace that never writes NCS has no NCS levels. */
  lemma {:induction false} NoNcsLevels(v: seq<Signal>)
    requires forall i :: 0 <= i < |v| ==> !v[i].Ncs?
    ensures Levels(v, NcsPin) == []
  {
    if v != [] {
      NoNcsLevels(v[..|v| - 1]);
    }
  }

  /** No prefix of a byte transfer writes NCS. */
  lemma WaveformPrefixNoNcs(out: bv8, ins: seq<bool>, j: nat)
    requires |ins| == 8 && j <= 32
    ensures Levels(Waveform(out, ins)[..j], NcsPin) == []
  {
    WaveformShape(out, ins);
    NoNcsLevels(Waveform(out, ins)[..j]);
  }

  /** A trace of one signal puts its own level on its own pin and nothing else. */
  lemma LevelsSingle(s: Signal, p: Pin)
    ensures Levels([s], p) == LevelOn(s, p)
  {
    assert [s][..0] == [];
  }

  /** The NCS level after `a + b` is the level after `b`, started from the level after `a`. */
  lemma NcsAfterAppend(a: seq<Signal>, b: seq<Signal>, initial: bool)
    ensures NcsAfter(a + b, initial) == NcsAfter(b, NcsAfter(a, initial))
  {
    LevelsAppend(a, b, NcsPin);
  }

  /**
   * A concatenation clocks only while selected exactly when its first part
   * does, and its second part does from the NCS level the first part leaves.
   */
  lemma ClocksAppend(a: seq<Signal>, b: seq<Signal>, initial: bool)
    ensures ClocksWhileSelected(a + b, initial)
      <==> ClocksWhileSelected(a, initial) && ClocksWhileSelected(b, NcsAfter(a, initial))
    ensures NcsAfter(a + b, initial) == NcsAfter(b, NcsAfter(a, initial))
  {
    NcsAfterAppend(a, b, initial);
    if ClocksWhileSelected(a, initial) && ClocksWhileSelected(b, NcsAfter(a, initial)) {
      ClocksJoin(a, b, initial);
    }
    if ClocksWhileSelected(a + b, initial) {
      ClocksSplit(a, b, initial);
    }
  }

  lemma ClocksJoin(a: seq<Signal>, b: seq<Signal>, initial: bool)
    requires ClocksWhileSelected(a, initial) && ClocksWhileSelected(b, NcsAfter(a, initial))
    ensures ClocksWhileSelected(a + b, initial)
  {
    forall k | 0 <= k < |a + b| && (a + b)[k].Sclk?
      ensures !NcsAfter((a + b)[..k], initial)
    {
      if k < |a| {
        assert (a + b)[..k] == a[..k];
        assert a[k].Sclk?;
      } else {
        assert (a + b)[..k] == a + b[..k - |a|];
        NcsAfterAppend(a, b[..k - |a|], initial);
        assert b[k - |a|].Sclk?;
      }
    }
  }

  lemma ClocksSplit(a: seq<Signal>, b: seq<Signal>, initial: bool)
    requires ClocksWhileSelected(a + b, initial)
    ensures ClocksWhileSelected(a, initial) && ClocksWhileSelected(b, NcsAfter(a, initial))
  {
    forall k | 0 <= k < |a| && a[k].Sclk?
      ensures !NcsAfter(a[..k], initial)
    {
      assert (a + b)[..k] == a[..k];
      assert (a + b)[k].Sclk?;
    }
    forall k | 0 <= k < |b| && b[k].Sclk?
      ensures !NcsAfter(b[..k], NcsAfter(a, initial))
    {
      var j := |a| + k;
      assert (a + b)[j].Sclk?;
      assert (a + b)[..j] == a + b[..k];
      NcsAfterAppend(a, b[..k], initial);
    }
  }


  /** One signal: a write to NCS sets the level, a clock edge needs the sensor selected. */
  lemma SignalSelected(s: Signal, initial: bool)
    ensures NcsAfter([s], initial) == if s.Ncs? then s.high else initial
    ensures ClocksWhileSelected([s], initial) <==> !(s.Sclk? && initial)
  {
    LevelsSingle(s, NcsPin);
    assert [s][..0] == [];
  }

  /** A byte transfer leaves NCS alone and clocks only while selected exactly when NCS starts LOW. */
  lemma WaveformSelected(out: bv8, ins: seq<bool>, initial: bool)
    requires |ins| == 8
    ensures NcsAfter(Waveform(out, ins), initial) == initial
    ensures ClocksWhileSelected(Waveform(out, ins), initial) <==> !initial
  {
    var w := Waveform(out, ins);
    WaveformLevels(out, ins);
    WaveformShape(out, ins);
    assert w[0] == Sclk(false) && w[..0] == [];
    forall k | 0 <= k < 32
      ensures NcsAfter(w[..k], initial) == initial
    {
      WaveformPrefixNoNcs(out, ins, k);
    }
  }
}
