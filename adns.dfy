/**
 * The ADNS-9800 register access of the driver (adns9800.c, and the inline
 * `ADNS_com_begin`/`ADNS_com_end` of adns9800.h) on top of the SPI master.
 *
 * Each function `...Trace` below is the pin activity of one driver routine,
 * given the MISO stream `line` and the number `c` of MISO samples taken
 * before it; each method is proved to append exactly that trace to the bus,
 * and the lemmas state what the trace puts on each pin: which bytes go out on
 * MOSI, how NCS frames them, and that the sensor is only clocked while it is
 * selected.
 */
module Adns {
  import opened Bits
  import opened Spi
  import opened AdnsRegs

  /** `ADNS_read_reg`: the address with bit 7 clear, 100 us, a dummy byte to clock the answer out. */
  function ReadTrace(reg: bv8, line: nat -> bool, c: nat): seq<Signal>
  {
    [Ncs(false)] + Waveform(ReadAddress(reg), Window(line, c)) + [Wait(100)]
    + Waveform(0, Window(line, c + 8)) + [Ncs(true)] + [Wait(19)]
  }

  /** `ADNS_write_reg`: the address with bit 7 set, then the value, 20 us before and 100 us after deselecting. */
  function WriteTrace(reg: bv8, value: bv8, line: nat -> bool, c: nat): seq<Signal>
  {
    [Ncs(false)] + Waveform(WriteAddress(reg), Window(line, c)) + Waveform(value, Window(line, c + 8))
    + [Wait(20)] + [Ncs(true)] + [Wait(100)]
  }

  /** One byte transfer per byte of `bytes`, each taking the next eight MISO samples. */
  function Transfers(bytes: seq<bv8>, line: nat -> bool, c: nat): seq<Signal>
  {
    if bytes == [] then []
    else
      var n := |bytes| - 1;
      Transfers(bytes[..n], line, c) + Waveform(bytes[n], Window(line, c + 8 * n))
  }

  /** The MISO windows of the transfers of `n` bytes. */
  function Windows(line: nat -> bool, c: nat, n: nat): seq<bool>
  {
    if n == 0 then [] else Windows(line, c, n - 1) + Window(line, c + 8 * (n - 1))
  }

  /** The bits of `bytes` as SPI sends them: byte by byte, each most significant bit first. */
  function BitStream(bytes: seq<bv8>): seq<bool>
  {
    if bytes == [] then [] else BitStream(bytes[..|bytes| - 1]) + MsbBits(bytes[|bytes| - 1])
  }

  /** The SROM burst of `ADNS_upload_firmware`: one selection holding the burst address and the whole image. */
  function BurstTrace(image: seq<bv8>, line: nat -> bool, c: nat): seq<Signal>
  {
    [Ncs(false)] + Waveform(WriteAddress(RegSromLoadBurst), Window(line, c)) + [Wait(15)]
    + Transfers(image, line, c + 8) + [Wait(2)] + [Ncs(true)] + [Wait(200)]
  }

  /** `ADNS_upload_firmware`: three register writes that arm the SROM download, 10 ms after the second, then the burst. */
  function UploadTrace(image: seq<bv8>, line: nat -> bool, c: nat): seq<Signal>
  {
    WriteTrace(RegConfigurationIV, 0x02, line, c) + WriteTrace(RegSromEnable, 0x1d, line, c + 16)
    + [Wait(10000)] + WriteTrace(RegSromEnable, 0x18, line, c + 32) + BurstTrace(image, line, c + 48)
  }

  /** `ADNS_com_begin`: NCS LOW and nothing else. */
  method ComBegin(bus: Bus)
    modifies bus
    ensures !bus.ncs && bus.wire == old(bus.wire) + [Ncs(false)]
    ensures bus.sclk == old(bus.sclk) && bus.mosi == old(bus.mosi) && bus.sampled == old(bus.sampled)
  {
    bus.SetNcs(false);
  }

  /** `ADNS_com_end`: NCS HIGH and nothing else. */
  method ComEnd(bus: Bus)
    modifies bus
    ensures bus.ncs && bus.wire == old(bus.wire) + [Ncs(true)]
    ensures bus.sclk == old(bus.sclk) && bus.mosi == old(bus.mosi) && bus.sampled == old(bus.sampled)
  {
    bus.SetNcs(true);
  }

  /** `ADNS_read_reg`: returns the byte the sensor shifts out during the second transfer. */
  method ReadReg(bus: Bus, reg: bv8) returns (data: bv8)
    modifies bus
    ensures bus.wire == old(bus.wire) + ReadTrace(reg, bus.miso, old(bus.sampled))
    ensures data == FromMsbBits(Window(bus.miso, old(bus.sampled) + 8))
    ensures bus.sampled == old(bus.sampled) + 16 && bus.ncs
  {
    ghost var w0, c := bus.wire, bus.sampled;
    ComBegin(bus);
    var _ := bus.Transfer(ReadAddress(reg));
    bus.Delay(100);
    data := bus.Transfer(0);
    ComEnd(bus);
    bus.Delay(19);
    ReadTraceParts(w0, reg, bus.miso, c);
  }

  /** `ADNS_write_reg`: the write address, then the value. */
  method WriteReg(bus: Bus, reg: bv8, value: bv8)
    modifies bus
    ensures bus.wire == old(bus.wire) + WriteTrace(reg, value, bus.miso, old(bus.sampled))
    ensures bus.sampled == old(bus.sampled) + 16 && bus.ncs
  {
    ghost var w0, c := bus.wire, bus.sampled;
    ComBegin(bus);
    var _ := bus.Transfer(WriteAddress(reg));
    var _ := bus.Transfer(value);
    bus.Delay(20);
    ComEnd(bus);
    bus.Delay(100);
    WriteTraceParts(w0, reg, value, bus.miso, c);
  }

  /**
   * `ADNS_upload_firmware`: the firmware image is a constant table of
   * `FirmwareLength` bytes in the original; here it is the parameter `image`.
   */
  method UploadFirmware(bus: Bus, image: seq<bv8>)
    requires |image| == FirmwareLength
    modifies bus
    ensures bus.wire == old(bus.wire) + UploadTrace(image, bus.miso, old(bus.sampled))
    ensures bus.sampled == old(bus.sampled) + 56 + 8 * |image| && bus.ncs
  {
    ghost var w0, c := bus.wire, bus.sampled;
    WriteReg(bus, RegConfigurationIV, 0x02);
    WriteReg(bus, RegSromEnable, 0x1d);
    bus.Delay(10000);
    WriteReg(bus, RegSromEnable, 0x18);
    ghost var w1 := bus.wire;
    SendBurst(bus, image);
    UploadTraceParts(w0, w1, image, bus.miso, c);
  }

  /** The burst part of `ADNS_upload_firmware`. */
  method SendBurst(bus: Bus, image: seq<bv8>)
    requires |image| == FirmwareLength
    modifies bus
    ensures bus.wire == old(bus.wire) + BurstTrace(image, bus.miso, old(bus.sampled))
    ensures bus.sampled == old(bus.sampled) + 8 + 8 * |image| && bus.ncs
  {
    ghost var w0, c := bus.wire, bus.sampled;
    ComBegin(bus);
    var _ := bus.Transfer(WriteAddress(RegSromLoadBurst));
    bus.Delay(15);
    ghost var w1 := bus.wire;
    SendAll(bus, image);
    bus.Delay(2);
    ComEnd(bus);
    bus.Delay(200);
    BurstTraceParts(w0, w1, image, bus.miso, c);
  }

  /** The loop of `ADNS_upload_firmware`: one transfer per byte, in order. */
  method SendAll(bus: Bus, bytes: seq<bv8>)
    modifies bus
    ensures bus.wire == old(bus.wire) + Transfers(bytes, bus.miso, old(bus.sampled))
    ensures bus.sampled == old(bus.sampled) + 8 * |bytes| && bus.ncs == old(bus.ncs)
  {
    ghost var w0, c := bus.wire, bus.sampled;
    for idx := 0 to |bytes|
      invariant bus.wire == w0 + Transfers(bytes[..idx], bus.miso, c)
      invariant bus.sampled == c + 8 * idx && bus.ncs == old(bus.ncs)
    {
      TransfersStep(w0, bytes, idx, bus.miso, c);
      var _ := bus.Transfer(bytes[idx]);
    }
    assert bytes[..|bytes|] == bytes;
  }

  // How the traces are assembled step by step

  lemma ReadTraceParts(w0: seq<Signal>, reg: bv8, line: nat -> bool, c: nat)
    ensures w0 + [Ncs(false)] + Waveform(ReadAddress(reg), Window(line, c)) + [Wait(100)]
      + Waveform(0, Window(line, c + 8)) + [Ncs(true)] + [Wait(19)]
      == w0 + ReadTrace(reg, line, c)
  {
    var a1, a2, a3 := [Ncs(false)], Waveform(ReadAddress(reg), Window(line, c)), [Wait(100)];
    var a4, a5, a6 := Waveform(0, Window(line, c + 8)), [Ncs(true)], [Wait(19)];
    AppendAssoc(w0, a1, a2);
    AppendAssoc(w0, a1 + a2, a3);
    AppendAssoc(w0, a1 + a2 + a3, a4);
    AppendAssoc(w0, a1 + a2 + a3 + a4, a5);
    AppendAssoc(w0, a1 + a2 + a3 + a4 + a5, a6);
  }

  lemma WriteTraceParts(w0: seq<Signal>, reg: bv8, value: bv8, line: nat -> bool, c: nat)
    ensures w0 + [Ncs(false)] + Waveform(WriteAddress(reg), Window(line, c)) + Waveform(value, Window(line, c + 8))
      + [Wait(20)] + [Ncs(true)] + [Wait(100)]
      == w0 + WriteTrace(reg, value, line, c)
  {
    var a1, a2, a3 := [Ncs(false)], Waveform(WriteAddress(reg), Window(line, c)), Waveform(value, Window(line, c + 8));
    var a4, a5, a6 := [Wait(20)], [Ncs(true)], [Wait(100)];
    AppendAssoc(w0, a1, a2);
    AppendAssoc(w0, a1 + a2, a3);
    AppendAssoc(w0, a1 + a2 + a3, a4);
    AppendAssoc(w0, a1 + a2 + a3 + a4, a5);
    AppendAssoc(w0, a1 + a2 + a3 + a4 + a5, a6);
  }

  lemma TransfersStep(w: seq<Signal>, bytes: seq<bv8>, idx: nat, line: nat -> bool, c: nat)
    requires idx < |bytes|
    ensures w + Transfers(bytes[..idx], line, c) + Waveform(bytes[idx], Window(line, c + 8 * idx))
      == w + Transfers(bytes[..idx + 1], line, c)
  {
    assert bytes[..idx + 1][..idx] == bytes[..idx];
    AppendAssoc(w, Transfers(bytes[..idx], line, c), Waveform(bytes[idx], Window(line, c + 8 * idx)));
  }

  lemma BurstTraceParts(w0: seq<Signal>, w1: seq<Signal>, image: seq<bv8>, line: nat -> bool, c: nat)
    requires w1 == w0 + [Ncs(false)] + Waveform(WriteAddress(RegSromLoadBurst), Window(line, c)) + [Wait(15)]
    ensures w1 + Transfers(image, line, c + 8) + [Wait(2)] + [Ncs(true)] + [Wait(200)]
      == w0 + BurstTrace(image, line, c)
  {
    var a1, a2, a3 := [Ncs(false)], Waveform(WriteAddress(RegSromLoadBurst), Window(line, c)), [Wait(15)];
    var a4, a5, a6, a7 := Transfers(image, line, c + 8), [Wait(2)], [Ncs(true)], [Wait(200)];
    AppendAssoc(w0, a1, a2);
    AppendAssoc(w0, a1 + a2, a3);
    AppendAssoc(w0, a1 + a2 + a3, a4);
    AppendAssoc(w0, a1 + a2 + a3 + a4, a5);
    AppendAssoc(w0, a1 + a2 + a3 + a4 + a5, a6);
    AppendAssoc(w0, a1 + a2 + a3 + a4 + a5 + a6, a7);
  }

  lemma UploadTraceParts(w0: seq<Signal>, w1: seq<Signal>, image: seq<bv8>, line: nat -> bool, c: nat)
    requires w1 == w0 + WriteTrace(RegConfigurationIV, 0x02, line, c) + WriteTrace(RegSromEnable, 0x1d, line, c + 16)
      + [Wait(10000)] + WriteTrace(RegSromEnable, 0x18, line, c + 32)
    ensures w1 + BurstTrace(image, line, c + 48) == w0 + UploadTrace(image, line, c)
  {
    var a1, a2 := WriteTrace(RegConfigurationIV, 0x02, line, c), WriteTrace(RegSromEnable, 0x1d, line, c + 16);
    var a3, a4, a5 := [Wait(10000)], WriteTrace(RegSromEnable, 0x18, line, c + 32), BurstTrace(image, line, c + 48);
    AppendAssoc(w0, a1, a2);
    AppendAssoc(w0, a1 + a2, a3);
    AppendAssoc(w0, a1 + a2 + a3, a4);
    AppendAssoc(w0, a1 + a2 + a3 + a4, a5);
  }

  // What the traces put on the pins

  /** Concatenation with the pieces of a trace that leave a pin alone. */
  lemma NoGaps<T>(a: seq<T>, b: seq<T>, c: seq<T>, d: seq<T>)
    ensures a + b + [] + c + d + [] == a + b + c + d
  {
  }

  /** A read selects the sensor once, clocks it only while selected and leaves it deselected. */
  lemma ReadTraceSelected(reg: bv8, line: nat -> bool, c: nat, initial: bool)
    ensures ClocksWhileSelected(ReadTrace(reg, line, c), initial)
    ensures NcsAfter(ReadTrace(reg, line, c), initial)
  {
    var a1, a2, a3 := [Ncs(false)], Waveform(ReadAddress(reg), Window(line, c)), [Wait(100)];
    var a4, a5, a6 := Waveform(0, Window(line, c + 8)), [Ncs(true)], [Wait(19)];
    SignalSelected(Ncs(false), initial);
    WaveformSelected(ReadAddress(reg), Window(line, c), false);
    ClocksAppend(a1, a2, initial);
    SignalSelected(Wait(100), false);
    ClocksAppend(a1 + a2, a3, initial);
    WaveformSelected(0, Window(line, c + 8), false);
    ClocksAppend(a1 + a2 + a3, a4, initial);
    SignalSelected(Ncs(true), false);
    ClocksAppend(a1 + a2 + a3 + a4, a5, initial);
    SignalSelected(Wait(19), true);
    ClocksAppend(a1 + a2 + a3 + a4 + a5, a6, initial);
  }

  /** On the wire of a read, NCS goes LOW once and HIGH once. */
  lemma ReadTraceNcs(reg: bv8, line: nat -> bool, c: nat)
    ensures Levels(ReadTrace(reg, line, c), NcsPin) == [false, true]
  {
    WaveformLevelsOn(ReadAddress(reg), Window(line, c), NcsPin);
    WaveformLevelsOn(0, Window(line, c + 8), NcsPin);
    ReadTracePins(reg, line, c, NcsPin);
    NoGaps([false], [], [], [true]);
    assert [false] + [] + [] + [true] == [false, true];
  }

  /** On the wire of a read, MOSI carries the read address byte and then the dummy byte 0. */
  lemma ReadTraceMosi(reg: bv8, line: nat -> bool, c: nat)
    ensures Levels(ReadTrace(reg, line, c), MosiPin) == MsbBits(ReadAddress(reg)) + MsbBits(0)
  {
    WaveformLevelsOn(ReadAddress(reg), Window(line, c), MosiPin);
    WaveformLevelsOn(0, Window(line, c + 8), MosiPin);
    ReadTracePins(reg, line, c, MosiPin);
    NoGaps([], MsbBits(ReadAddress(reg)), MsbBits(0), []);
    assert [] + MsbBits(ReadAddress(reg)) + MsbBits(0) + [] == MsbBits(ReadAddress(reg)) + MsbBits(0);
  }

  /** The sixteen MISO samples of a read are the sensor's output in the two windows. */
  lemma ReadTraceMiso(reg: bv8, line: nat -> bool, c: nat)
    ensures Levels(ReadTrace(reg, line, c), MisoPin) == Window(line, c) + Window(line, c + 8)
  {
    var w1, w2 := Window(line, c), Window(line, c + 8);
    WaveformLevelsOn(ReadAddress(reg), w1, MisoPin);
    WaveformLevelsOn(0, w2, MisoPin);
    ReadTracePins(reg, line, c, MisoPin);
    NoGaps([], w1, w2, []);
    assert [] + w1 + w2 + [] == w1 + w2;
  }

  lemma ReadTracePins(reg: bv8, line: nat -> bool, c: nat, p: Pin)
    ensures Levels(ReadTrace(reg, line, c), p)
      == LevelOn(Ncs(false), p) + Levels(Waveform(ReadAddress(reg), Window(line, c)), p) + LevelOn(Wait(100), p)
      + Levels(Waveform(0, Window(line, c + 8)), p) + LevelOn(Ncs(true), p) + LevelOn(Wait(19), p)
  {
    var a1, a2, a3 := [Ncs(false)], Waveform(ReadAddress(reg), Window(line, c)), [Wait(100)];
    var a4, a5, a6 := Waveform(0, Window(line, c + 8)), [Ncs(true)], [Wait(19)];
    LevelsSingle(Ncs(false), p);
    LevelsSingle(Wait(100), p);
    LevelsSingle(Ncs(true), p);
    LevelsSingle(Wait(19), p);
    LevelsAppend(a1, a2, p);
    LevelsAppend(a1 + a2, a3, p);
    LevelsAppend(a1 + a2 + a3, a4, p);
    LevelsAppend(a1 + a2 + a3 + a4, a5, p);
    LevelsAppend(a1 + a2 + a3 + a4 + a5, a6, p);
  }

  /**
   * The byte `ReadReg` returns is the one the sensor shifts out MSB first
   * during the second transfer of the read.
   */
  lemma ReadReturnsSensorByte(reg: bv8, line: nat -> bool, c: nat, v: bv8)
    requires Levels(ReadTrace(reg, line, c), MisoPin) == Window(line, c) + MsbBits(v)
    ensures FromMsbBits(Window(line, c + 8)) == v
  {
    var w1, w2 := Window(line, c), Window(line, c + 8);
    ReadTraceMiso(reg, line, c);
    assert (w1 + w2)[8..] == w2 && (w1 + MsbBits(v))[8..] == MsbBits(v);
    MsbRoundTrip(v);
  }

  /** A write selects the sensor once, clocks it only while selected and leaves it deselected. */
  lemma WriteTraceSelected(reg: bv8, value: bv8, line: nat -> bool, c: nat, initial: bool)
    ensures ClocksWhileSelected(WriteTrace(reg, value, line, c), initial)
    ensures NcsAfter(WriteTrace(reg, value, line, c), initial)
  {
    var a1, a2, a3 := [Ncs(false)], Waveform(WriteAddress(reg), Window(line, c)), Waveform(value, Window(line, c + 8));
    var a4, a5, a6 := [Wait(20)], [Ncs(true)], [Wait(100)];
    SignalSelected(Ncs(false), initial);
    WaveformSelected(WriteAddress(reg), Window(line, c), false);
    ClocksAppend(a1, a2, initial);
    WaveformSelected(value, Window(line, c + 8), false);
    ClocksAppend(a1 + a2, a3, initial);
    SignalSelected(Wait(20), false);
    ClocksAppend(a1 + a2 + a3, a4, initial);
    SignalSelected(Ncs(true), false);
    ClocksAppend(a1 + a2 + a3 + a4, a5, initial);
    SignalSelected(Wait(100), true);
    ClocksAppend(a1 + a2 + a3 + a4 + a5, a6, initial);
  }

  lemma WriteTracePins(reg: bv8, value: bv8, line: nat -> bool, c: nat, p: Pin)
    ensures Levels(WriteTrace(reg, value, line, c), p)
      == LevelOn(Ncs(false), p) + Levels(Waveform(WriteAddress(reg), Window(line, c)), p)
      + Levels(Waveform(value, Window(line, c + 8)), p) + LevelOn(Wait(20), p) + LevelOn(Ncs(true), p)
      + LevelOn(Wait(100), p)
  {
    var a1, a2, a3 := [Ncs(false)], Waveform(WriteAddress(reg), Window(line, c)), Waveform(value, Window(line, c + 8));
    var a4, a5, a6 := [Wait(20)], [Ncs(true)], [Wait(100)];
    LevelsSingle(Ncs(false), p);
    LevelsSingle(Wait(20), p);
    LevelsSingle(Ncs(true), p);
    LevelsSingle(Wait(100), p);
    LevelsAppend(a1, a2, p);
    LevelsAppend(a1 + a2, a3, p);
    LevelsAppend(a1 + a2 + a3, a4, p);
    LevelsAppend(a1 + a2 + a3 + a4, a5, p);
    LevelsAppend(a1 + a2 + a3 + a4 + a5, a6, p);
  }

  /** On the wire of a write, NCS goes LOW once and HIGH once. */
  lemma WriteTraceNcs(reg: bv8, value: bv8, line: nat -> bool, c: nat)
    ensures Levels(WriteTrace(reg, value, line, c), NcsPin) == [false, true]
  {
    WaveformLevelsOn(WriteAddress(reg), Window(line, c), NcsPin);
    WaveformLevelsOn(value, Window(line, c + 8), NcsPin);
    WriteTracePins(reg, value, line, c, NcsPin);
    assert [false] + [] + [] + [] + [true] + [] == [false, true];
  }

  /** On the wire of a write, MOSI carries the write address byte and then the value. */
  lemma WriteTraceMosi(reg: bv8, value: bv8, line: nat -> bool, c: nat)
    ensures Levels(WriteTrace(reg, value, line, c), MosiPin) == MsbBits(WriteAddress(reg)) + MsbBits(value)
  {
    var m1, m2 := MsbBits(WriteAddress(reg)), MsbBits(value);
    WaveformLevelsOn(WriteAddress(reg), Window(line, c), MosiPin);
    WaveformLevelsOn(value, Window(line, c + 8), MosiPin);
    WriteTracePins(reg, value, line, c, MosiPin);
    assert [] + m1 + m2 + [] + [] + [] == m1 + m2;
  }

  /** The transfers of a run of bytes never write NCS. */
  lemma {:induction false} TransfersNcs(bytes: seq<bv8>, line: nat -> bool, c: nat)
    ensures Levels(Transfers(bytes, line, c), NcsPin) == []
  {
    if bytes == [] {
      assert Levels([], NcsPin) == [];
    } else {
      var n := |bytes| - 1;
      var front, last := Transfers(bytes[..n], line, c), Waveform(bytes[n], Window(line, c + 8 * n));
      assert Transfers(bytes, line, c) == front + last;
      TransfersNcs(bytes[..n], line, c);
      WaveformLevelsOn(bytes[n], Window(line, c + 8 * n), NcsPin);
      LevelsAppend(front, last, NcsPin);
    }
  }

  /** With the sensor selected, the transfers of a run of bytes clock it only while it stays selected. */
  lemma {:induction false} TransfersSelected(bytes: seq<bv8>, line: nat -> bool, c: nat)
    ensures ClocksWhileSelected(Transfers(bytes, line, c), false)
  {
    if bytes != [] {
      var n := |bytes| - 1;
      var front, last := Transfers(bytes[..n], line, c), Waveform(bytes[n], Window(line, c + 8 * n));
      assert Transfers(bytes, line, c) == front + last;
      TransfersSelected(bytes[..n], line, c);
      TransfersNcs(bytes[..n], line, c);
      WaveformSelected(bytes[n], Window(line, c + 8 * n), false);
      ClocksAppend(front, last, false);
    }
  }

  /** The MOSI levels of the transfers of a run of bytes: the bytes in order, each MSB first. */
  lemma {:induction false} TransfersMosi(bytes: seq<bv8>, line: nat -> bool, c: nat)
    ensures Levels(Transfers(bytes, line, c), MosiPin) == BitStream(bytes)
  {
    if bytes == [] {
      assert Levels([], MosiPin) == [];
    } else {
      var n := |bytes| - 1;
      var front, last := Transfers(bytes[..n], line, c), Waveform(bytes[n], Window(line, c + 8 * n));
      assert Transfers(bytes, line, c) == front + last;
      TransfersMosi(bytes[..n], line, c);
      WaveformLevelsOn(bytes[n], Window(line, c + 8 * n), MosiPin);
      LevelsAppend(front, last, MosiPin);
    }
  }

  /** The MISO levels of the transfers of a run of bytes: one window of eight samples per byte. */
  lemma {:induction false} TransfersMiso(bytes: seq<bv8>, line: nat -> bool, c: nat)
    ensures Levels(Transfers(bytes, line, c), MisoPin) == Windows(line, c, |bytes|)
  {
    if bytes == [] {
      assert Levels([], MisoPin) == [];
    } else {
      var n := |bytes| - 1;
      var front, last := Transfers(bytes[..n], line, c), Waveform(bytes[n], Window(line, c + 8 * n));
      assert Transfers(bytes, line, c) == front + last;
      TransfersMiso(bytes[..n], line, c);
      assert |bytes[..n]| == n;
      WaveformLevelsOn(bytes[n], Window(line, c + 8 * n), MisoPin);
      assert Levels(last, MisoPin) == Window(line, c + 8 * n);
      LevelsAppend(front, last, MisoPin);
      assert Windows(line, c, |bytes|) == Windows(line, c, n) + Window(line, c + 8 * n);
    }
  }

  /** The SROM burst selects the sensor once for the whole image and clocks it only while selected. */
  lemma BurstTraceSelected(image: seq<bv8>, line: nat -> bool, c: nat, initial: bool)
    ensures ClocksWhileSelected(BurstTrace(image, line, c), initial)
    ensures NcsAfter(BurstTrace(image, line, c), initial)
  {
    var a1, a2, a3 := [Ncs(false)], Waveform(WriteAddress(RegSromLoadBurst), Window(line, c)), [Wait(15)];
    var a4, a5, a6, a7 := Transfers(image, line, c + 8), [Wait(2)], [Ncs(true)], [Wait(200)];
    SignalSelected(Ncs(false), initial);
    WaveformSelected(WriteAddress(RegSromLoadBurst), Window(line, c), false);
    ClocksAppend(a1, a2, initial);
    SignalSelected(Wait(15), false);
    ClocksAppend(a1 + a2, a3, initial);
    TransfersSelected(image, line, c + 8);
    TransfersNcs(image, line, c + 8);
    ClocksAppend(a1 + a2 + a3, a4, initial);
    SignalSelected(Wait(2), false);
    ClocksAppend(a1 + a2 + a3 + a4, a5, initial);
    SignalSelected(Ncs(true), false);
    ClocksAppend(a1 + a2 + a3 + a4 + a5, a6, initial);
    SignalSelected(Wait(200), true);
    ClocksAppend(a1 + a2 + a3 + a4 + a5 + a6, a7, initial);
  }

  lemma BurstTracePins(image: seq<bv8>, line: nat -> bool, c: nat, p: Pin)
    ensures Levels(BurstTrace(image, line, c), p)
      == LevelOn(Ncs(false), p) + Levels(Waveform(WriteAddress(RegSromLoadBurst), Window(line, c)), p)
      + LevelOn(Wait(15), p) + Levels(Transfers(image, line, c + 8), p) + LevelOn(Wait(2), p)
      + LevelOn(Ncs(true), p) + LevelOn(Wait(200), p)
  {
    var a1, a2, a3 := [Ncs(false)], Waveform(WriteAddress(RegSromLoadBurst), Window(line, c)), [Wait(15)];
    var a4, a5, a6, a7 := Transfers(image, line, c + 8), [Wait(2)], [Ncs(true)], [Wait(200)];
    LevelsSingle(Ncs(false), p);
    LevelsSingle(Wait(15), p);
    LevelsSingle(Wait(2), p);
    LevelsSingle(Ncs(true), p);
    LevelsSingle(Wait(200), p);
    LevelsAppend(a1, a2, p);
    LevelsAppend(a1 + a2, a3, p);
    LevelsAppend(a1 + a2 + a3, a4, p);
    LevelsAppend(a1 + a2 + a3 + a4, a5, p);
    LevelsAppend(a1 + a2 + a3 + a4 + a5, a6, p);
    LevelsAppend(a1 + a2 + a3 + a4 + a5 + a6, a7, p);
  }

  /** NCS goes LOW once and HIGH once around the whole burst: the image is sent in one selection. */
  lemma BurstTraceNcs(image: seq<bv8>, line: nat -> bool, c: nat)
    ensures Levels(BurstTrace(image, line, c), NcsPin) == [false, true]
  {
    var w := Levels(Waveform(WriteAddress(RegSromLoadBurst), Window(line, c)), NcsPin);
    var t := Levels(Transfers(image, line, c + 8), NcsPin);
    WaveformLevels(WriteAddress(RegSromLoadBurst), Window(line, c));
    assert w == [];
    TransfersNcs(image, line, c + 8);
    assert t == [];
    BurstTracePins(image, line, c, NcsPin);
    assert LevelOn(Ncs(false), NcsPin) == [false];
    assert LevelOn(Ncs(true), NcsPin) == [true];
    assert LevelOn(Wait(15), NcsPin) == [] && LevelOn(Wait(2), NcsPin) == [] && LevelOn(Wait(200), NcsPin) == [];
    OneSelection(LevelOn(Ncs(false), NcsPin), w, LevelOn(Wait(15), NcsPin), t, LevelOn(Wait(2), NcsPin),
      LevelOn(Ncs(true), NcsPin), LevelOn(Wait(200), NcsPin));
  }

  /** Chip select goes low once and high once, with no other NCS writes in between. */
  lemma OneSelection(a: seq<bool>, b: seq<bool>, c: seq<bool>, d: seq<bool>, e: seq<bool>, f: seq<bool>, g: seq<bool>)
    requires a == [false] && f == [true] && b == [] && c == [] && d == [] && e == [] && g == []
    ensures a + b + c + d + e + f + g == [false, true]
  {
    assert a + b + c + d + e == [false];
  }


  /** MOSI carries the SROM_Load_Burst write address and then the image, byte by byte in order. */
  lemma BurstTraceMosi(image: seq<bv8>, line: nat -> bool, c: nat)
    ensures Levels(BurstTrace(image, line, c), MosiPin) == MsbBits(WriteAddress(RegSromLoadBurst)) + BitStream(image)
  {
    var m1, m2 := MsbBits(WriteAddress(RegSromLoadBurst)), BitStream(image);
    WaveformLevelsOn(WriteAddress(RegSromLoadBurst), Window(line, c), MosiPin);
    TransfersMosi(image, line, c + 8);
    BurstTracePins(image, line, c, MosiPin);
    assert [] + m1 + [] + m2 + [] + [] + [] == m1 + m2;
  }

  /** The whole upload: four selections, each clocked only while selected, ending deselected. */
  lemma UploadTraceSelected(image: seq<bv8>, line: nat -> bool, c: nat, initial: bool)
    ensures ClocksWhileSelected(UploadTrace(image, line, c), initial)
    ensures NcsAfter(UploadTrace(image, line, c), initial)
  {
    var a1, a2 := WriteTrace(RegConfigurationIV, 0x02, line, c), WriteTrace(RegSromEnable, 0x1d, line, c + 16);
    var a3, a4, a5 := [Wait(10000)], WriteTrace(RegSromEnable, 0x18, line, c + 32), BurstTrace(image, line, c + 48);
    WriteTraceSelected(RegConfigurationIV, 0x02, line, c, initial);
    WriteTraceSelected(RegSromEnable, 0x1d, line, c + 16, true);
    ClocksAppend(a1, a2, initial);
    SignalSelected(Wait(10000), true);
    ClocksAppend(a1 + a2, a3, initial);
    WriteTraceSelected(RegSromEnable, 0x18, line, c + 32, true);
    ClocksAppend(a1 + a2 + a3, a4, initial);
    BurstTraceSelected(image, line, c + 48, true);
    ClocksAppend(a1 + a2 + a3 + a4, a5, initial);
  }

  lemma UploadTracePins(image: seq<bv8>, line: nat -> bool, c: nat, p: Pin)
    ensures Levels(UploadTrace(image, line, c), p)
      == Levels(WriteTrace(RegConfigurationIV, 0x02, line, c), p) + Levels(WriteTrace(RegSromEnable, 0x1d, line, c + 16), p)
      + LevelOn(Wait(10000), p) + Levels(WriteTrace(RegSromEnable, 0x18, line, c + 32), p)
      + Levels(BurstTrace(image, line, c + 48), p)
  {
    var a1, a2 := WriteTrace(RegConfigurationIV, 0x02, line, c), WriteTrace(RegSromEnable, 0x1d, line, c + 16);
    var a3, a4, a5 := [Wait(10000)], WriteTrace(RegSromEnable, 0x18, line, c + 32), BurstTrace(image, line, c + 48);
    LevelsSingle(Wait(10000), p);
    LevelsAppend(a1, a2, p);
    LevelsAppend(a1 + a2, a3, p);
    LevelsAppend(a1 + a2 + a3, a4, p);
    LevelsAppend(a1 + a2 + a3 + a4, a5, p);
  }

  lemma FourSelections()
    ensures [false, true] + [false, true] + [] + [false, true] + [false, true]
      == [false, true, false, true, false, true, false, true]
  {
    var pair := [false, true];
    assert pair + pair == [false, true, false, true];
    assert [false, true, false, true] + pair == [false, true, false, true, false, true];
  }

  /** NCS frames four transactions: three register writes and the burst. */
  lemma UploadTraceNcs(image: seq<bv8>, line: nat -> bool, c: nat)
    ensures Levels(UploadTrace(image, line, c), NcsPin) == [false, true, false, true, false, true, false, true]
  {
    WriteTraceNcs(RegConfigurationIV, 0x02, line, c);
    WriteTraceNcs(RegSromEnable, 0x1d, line, c + 16);
    WriteTraceNcs(RegSromEnable, 0x18, line, c + 32);
    BurstTraceNcs(image, line, c + 48);
    UploadTracePins(image, line, c, NcsPin);
    FourSelections();
  }

  /**
   * MOSI carries, in order: Configuration_IV := 0x02, SROM_Enable := 0x1d,
   * SROM_Enable := 0x18 (each as write address and value), the
   * SROM_Load_Burst write address, and the image.
   */
  lemma UploadTraceMosi(image: seq<bv8>, line: nat -> bool, c: nat)
    ensures Levels(UploadTrace(image, line, c), MosiPin)
      == MsbBits(WriteAddress(RegConfigurationIV)) + MsbBits(0x02)
      + MsbBits(WriteAddress(RegSromEnable)) + MsbBits(0x1d)
      + MsbBits(WriteAddress(RegSromEnable)) + MsbBits(0x18)
      + MsbBits(WriteAddress(RegSromLoadBurst)) + BitStream(image)
  {
    var m1, m2, m3 := MsbBits(WriteAddress(RegConfigurationIV)), MsbBits(0x02), MsbBits(WriteAddress(RegSromEnable));
    var m4, m5, m6, m7 := MsbBits(0x1d), MsbBits(0x18), MsbBits(WriteAddress(RegSromLoadBurst)), BitStream(image);
    WriteTraceMosi(RegConfigurationIV, 0x02, line, c);
    WriteTraceMosi(RegSromEnable, 0x1d, line, c + 16);
    WriteTraceMosi(RegSromEnable, 0x18, line, c + 32);
    BurstTraceMosi(image, line, c + 48);
    UploadTracePins(image, line, c, MosiPin);
    AppendAssoc(m1 + m2, m3, m4);
    assert m1 + m2 + m3 + m4 + [] == m1 + m2 + m3 + m4;
    AppendAssoc(m1 + m2 + m3 + m4, m3, m5);
    AppendAssoc(m1 + m2 + m3 + m4 + m3 + m5, m6, m7);
  }
}
