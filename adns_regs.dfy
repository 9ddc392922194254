/**
 * The register map of the ADNS-9800 sensor and the layout of its Motion
 * register, as the driver declares them (adns9800.h).
 */
module AdnsRegs {
  import opened Bits

  const SupportedProductId: bv8 := 0x33
  const FirmwareLength: nat := 3070
  /** Bit 7 of the address byte: set for a register write, clear for a read. */
  const WriteRequest: bv8 := 0x80

  const RegProductId: bv8 := 0x00
  const RegRevisionId: bv8 := 0x01
  const RegMotion: bv8 := 0x02
  const RegDeltaXL: bv8 := 0x03
  const RegDeltaXH: bv8 := 0x04
  const RegDeltaYL: bv8 := 0x05
  const RegDeltaYH: bv8 := 0x06
  const RegSqual: bv8 := 0x07
  const RegPixelSum: bv8 := 0x08
  const RegMaximumPixel: bv8 := 0x09
  const RegMinimumPixel: bv8 := 0x0a
  const RegShutterLower: bv8 := 0x0b
  const RegShutterUpper: bv8 := 0x0c
  const RegFramePeriodLower: bv8 := 0x0d
  const RegFramePeriodUpper: bv8 := 0x0e
  const RegConfigurationI: bv8 := 0x0f
  const RegConfigurationII: bv8 := 0x10
  const RegFrameCapture: bv8 := 0x12
  const RegSromEnable: bv8 := 0x13
  const RegRunDownshift: bv8 := 0x14
  const RegRest1Rate: bv8 := 0x15
  const RegRest1Downshift: bv8 := 0x16
  const RegRest2Rate: bv8 := 0x17
  const RegRest2Downshift: bv8 := 0x18
  const RegRest3Rate: bv8 := 0x19
  const RegFramePeriodMaxBoundLower: bv8 := 0x1a
  const RegFramePeriodMaxBoundUpper: bv8 := 0x1b
  const RegFramePeriodMinBoundLower: bv8 := 0x1c
  const RegFramePeriodMinBoundUpper: bv8 := 0x1d
  const RegShutterMaxBoundLower: bv8 := 0x1e
  const RegShutterMaxBoundUpper: bv8 := 0x1f
  const RegLaserCtrl0: bv8 := 0x20
  const RegObservation: bv8 := 0x24
  const RegDataOutLower: bv8 := 0x25
  const RegDataOutUpper: bv8 := 0x26
  const RegSromId: bv8 := 0x2a
  const RegLiftDetectionThr: bv8 := 0x2e
  const RegConfigurationV: bv8 := 0x2f
  const RegConfigurationIV: bv8 := 0x39
  const RegPowerUpReset: bv8 := 0x3a
  const RegShutdown: bv8 := 0x3b
  const RegInverseProductId: bv8 := 0x3f
  const RegMotionBurst: bv8 := 0x50
  const RegSromLoadBurst: bv8 := 0x62
  const RegPixelBurst: bv8 := 0x64

  /** `r` is one of the register addresses the driver declares. */
  predicate Declared(r: bv8)
  {
    r == RegProductId || r == RegRevisionId || r == RegMotion ||
    r == RegDeltaXL || r == RegDeltaXH || r == RegDeltaYL ||
    r == RegDeltaYH || r == RegSqual || r == RegPixelSum ||
    r == RegMaximumPixel || r == RegMinimumPixel || r == RegShutterLower ||
    r == RegShutterUpper || r == RegFramePeriodLower || r == RegFramePeriodUpper ||
    r == RegConfigurationI || r == RegConfigurationII || r == RegFrameCapture ||
    r == RegSromEnable || r == RegRunDownshift || r == RegRest1Rate ||
    r == RegRest1Downshift || r == RegRest2Rate || r == RegRest2Downshift ||
    r == RegRest3Rate || r == RegFramePeriodMaxBoundLower || r == RegFramePeriodMaxBoundUpper ||
    r == RegFramePeriodMinBoundLower || r == RegFramePeriodMinBoundUpper || r == RegShutterMaxBoundLower ||
    r == RegShutterMaxBoundUpper || r == RegLaserCtrl0 || r == RegObservation ||
    r == RegDataOutLower || r == RegDataOutUpper || r == RegSromId ||
    r == RegLiftDetectionThr || r == RegConfigurationV || r == RegConfigurationIV ||
    r == RegPowerUpReset || r == RegShutdown || r == RegInverseProductId ||
    r == RegMotionBurst || r == RegSromLoadBurst || r == RegPixelBurst
  }

  /** The address byte of a read: bit 7 cleared. */
  function ReadAddress(reg: bv8): bv8
  {
    reg & 0x7f
  }

  /** The address byte of a write: bit 7 set. */
  function WriteAddress(reg: bv8): bv8
  {
    reg | WriteRequest
  }

  /**
   * For an address below 0x80 the read and write address bytes differ only in
   * bit 7: the read byte is the address itself, and the write flag changes no
   * address bit.
   */
  lemma AddressBytes(reg: bv8)
    requires reg < 0x80
    ensures ReadAddress(reg) == reg
    ensures WriteAddress(reg) & 0x7f == reg
    ensures Bit(WriteAddress(reg), 7) && !Bit(ReadAddress(reg), 7)
    ensures forall k :: 0 <= k < 7 ==> Bit(WriteAddress(reg), k) == Bit(reg, k)
  {
    forall k | 0 <= k < 7
      ensures Bit(WriteAddress(reg), k) == Bit(reg, k)
    {
      WriteFlagKeepsBit(reg, k);
    }
  }

  lemma WriteFlagKeepsBit(reg: bv8, k: nat)
    requires k < 7
    ensures Bit(reg | 0x80, k) == Bit(reg, k)
  {
  }

  /** Every declared register fits in seven bits. */
  lemma RegistersBelowWriteFlag(r: bv8)
    requires Declared(r)
    ensures r < WriteRequest
  {
  }

  /** So for every declared register the read address byte is the address and the write byte keeps it. */
  lemma RegisterAddressBytes(r: bv8)
    requires Declared(r)
    ensures ReadAddress(r) == r && WriteAddress(r) & 0x7f == r
  {
    RegistersBelowWriteFlag(r);
    AddressBytes(r);
  }

  /** The operating mode field of the Motion register. */
  datatype OpMode = Run | Rest1 | Rest2 | Rest3

  /**
   * The Motion register as `motion_t` lays it out, first field in bit 0:
   * FRAME_PIX_FIRST in bit 0, OP_MODE in bits 1-2, two unnamed bits 3-4,
   * LP_VALID in bit 5, FAULT in bit 6, MOT in bit 7.
   */
  datatype Motion = Motion(
    framePixFirst: bool,
    opMode: OpMode,
    reserved3: bool,
    reserved4: bool,
    lpValid: bool,
    fault: bool,
    mot: bool)

  function OpModeOf(bit2: bool, bit1: bool): OpMode
  {
    if !bit2 && !bit1 then Run else if !bit2 then Rest1 else if !bit1 then Rest2 else Rest3
  }

  /** Reading the register byte through the bitfield struct. */
  function DecodeMotion(b: bv8): (m: Motion)
    ensures m.framePixFirst == Bit(b, 0) && m.lpValid == Bit(b, 5)
    ensures m.fault == Bit(b, 6) && m.mot == Bit(b, 7)
    ensures m.opMode == Run <==> b & 0x06 == 0x00
    ensures m.opMode == Rest1 <==> b & 0x06 == 0x02
    ensures m.opMode == Rest2 <==> b & 0x06 == 0x04
    ensures m.opMode == Rest3 <==> b & 0x06 == 0x06
  {
    Motion(Bit(b, 0), OpModeOf(Bit(b, 2), Bit(b, 1)), Bit(b, 3), Bit(b, 4), Bit(b, 5), Bit(b, 6), Bit(b, 7))
  }

  function OpModeBits(mode: OpMode): bv8
  {
    match mode
    case Run => 0x00
    case Rest1 => 0x02
    case Rest2 => 0x04
    case Rest3 => 0x06
  }

  /** The register byte whose fields are those of `m`. */
  function EncodeMotion(m: Motion): bv8
  {
    (if m.mot then 0x80 else 0) | (if m.fault then 0x40 else 0) | (if m.lpValid then 0x20 else 0)
    | (if m.reserved4 then 0x10 else 0) | (if m.reserved3 then 0x08 else 0)
    | OpModeBits(m.opMode) | (if m.framePixFirst then 0x01 else 0)
  }

  /** Every register byte is the encoding of the fields read from it. */
  lemma EncodeDecodeMotion(b: bv8)
    ensures EncodeMotion(DecodeMotion(b)) == b
  {
    var m := DecodeMotion(b);
    assert OpModeBits(m.opMode) == b & 0x06;
  }

  /** Each field of `m` lands in its own bits of the encoded byte. */
  lemma EncodeMotionBits(m: Motion)
    ensures EncodeMotion(m) & 0x06 == OpModeBits(m.opMode)
    ensures Bit(EncodeMotion(m), 0) == m.framePixFirst
    ensures Bit(EncodeMotion(m), 3) == m.reserved3 && Bit(EncodeMotion(m), 4) == m.reserved4
    ensures Bit(EncodeMotion(m), 5) == m.lpValid && Bit(EncodeMotion(m), 6) == m.fault
    ensures Bit(EncodeMotion(m), 7) == m.mot
  {
  }

  /** Decoding an encoded record gives back every field. */
  lemma DecodeEncodeMotion(m: Motion)
    ensures DecodeMotion(EncodeMotion(m)) == m
  {
    EncodeMotionBits(m);
  }
}
