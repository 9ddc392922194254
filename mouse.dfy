/**
 * The main program of the mouse (mouse.c): bring-up of the sensor, the
 * calibration sub-mode driven by the two buttons, button passthrough, the
 * "Yes"/"No" cursor gestures, and the main loop that reads the motion
 * deltas and drains them as quadrature steps.
 *
 * The sensor and the EEPROM are seen at the level of register and cell
 * operations; what those operations put on the wire is the subject of the
 * Adns module. The sensor's answers are an oracle: the read recorded at
 * position `i` of the effect log returns `Answer(i)`.
 */
module Mouse {
  import opened Bits
  import opened AdnsRegs
  import opened Quadrature
  import opened Int16
  import Spi

  /** One externally visible operation of the firmware, in program order. */
  datatype Effect =
    | Select                      // ADNS_com_begin
    | Deselect                    // ADNS_com_end
    | Read(reg: bv8)              // ADNS_read_reg
    | Write(reg: bv8, value: bv8) // ADNS_write_reg
    | Upload                      // ADNS_upload_firmware
    | DelayMs(ms: nat)            // DELAY_MS
    | EeRead                      // EE_read_byte of the calibration cell
    | EeWrite(value: bv8)         // EE_write_byte of the calibration cell

  // ---------------------------------------------------------------------------
  // Resolution restore (ADNS_set_resolution)

  const DefaultResolution: bv8 := 0x44
  const MinResolution: bv8 := 0x01
  const MaxResolution: bv8 := 0xA4

  /** The resolutions the calibration mode accepts. */
  predicate InCalibrationRange(r: bv8)
  {
    MinResolution <= r <= MaxResolution
  }

  /** The resolution applied at start-up from the stored byte: kept when valid, the default otherwise. */
  function RestoredResolution(stored: bv8): (r: bv8)
    ensures InCalibrationRange(r)
    ensures InCalibrationRange(stored) ==> r == stored
    ensures !InCalibrationRange(stored) ==> r == DefaultResolution
  {
    if stored < MinResolution || stored > MaxResolution then DefaultResolution else stored
  }

  /** The effects of `ADNS_set_resolution` when the EEPROM cell holds `stored`. */
  function ResolutionEffects(stored: bv8): seq<Effect>
  {
    [EeRead]
    + (if InCalibrationRange(stored) then [] else [EeWrite(DefaultResolution)])
    + [Write(RegConfigurationI, RestoredResolution(stored)), Read(RegConfigurationI)]
  }

  /**
   * The EEPROM is written only when the stored byte is invalid, and then
   * with the default; the sensor's Configuration_I register always receives
   * the restored resolution.
   */
  lemma ResolutionWrites(stored: bv8)
    ensures (exists v :: EeWrite(v) in ResolutionEffects(stored)) <==> !InCalibrationRange(stored)
    ensures forall v :: EeWrite(v) in ResolutionEffects(stored) ==> v == DefaultResolution
    ensures forall v :: Write(RegConfigurationI, v) in ResolutionEffects(stored) ==> v == RestoredResolution(stored)
    ensures Write(RegConfigurationI, RestoredResolution(stored)) in ResolutionEffects(stored)
  {
    var e := ResolutionEffects(stored);
    if InCalibrationRange(stored) {
      assert e == [EeRead, Write(RegConfigurationI, stored), Read(RegConfigurationI)];
    } else {
      assert e == [EeRead, EeWrite(DefaultResolution), Write(RegConfigurationI, DefaultResolution), Read(RegConfigurationI)];
    }
  }

  // ---------------------------------------------------------------------------
  // Sensor health check (ADNS_init)

  const CrcLow: bv8 := 0xEF
  const CrcHigh: bv8 := 0xBE

  /** The answers with which the sensor is accepted: product ID, its inverse, the SROM CRC. */
  predicate Healthy(id: bv8, inverse: bv8, crcLow: bv8, crcHigh: bv8)
  {
    id == SupportedProductId && inverse ^ id == 0xff && crcLow == CrcLow && crcHigh == CrcHigh
  }

  /** The laser control value written back: the reserved upper nibble as read, the lower nibble cleared. */
  function LaserEnabled(mode: bv8): (r: bv8)
    ensures r & 0x0f == 0
    ensures r & 0xf0 == mode & 0xf0
  {
    mode & 0xf0
  }

  /** The operations of `ADNS_init` up to and including the read of the product ID. */
  function PowerUpEffects(): seq<Effect>
  {
    [Select, Deselect, Write(RegPowerUpReset, 0x5a), DelayMs(50),
     Read(RegMotion), Read(RegDeltaXL), Read(RegDeltaXH), Read(RegDeltaYL), Read(RegDeltaYH),
     Upload, Read(RegProductId)]
  }


  /** The reads of `ADNS_dispRegisters`, one per register it prints, in order. */
  function DisplayEffects(): seq<Effect>
  {
    [Read(RegProductId), Read(RegRevisionId), Read(RegMotion), Read(RegObservation), Read(RegSromId),
     Read(RegConfigurationI), Read(RegConfigurationII), Read(RegConfigurationIV), Read(RegConfigurationV)]
  }

  /** The operations of the health check after the product ID was read, given the sensor's answers. */
  function HealthEffects(id: bv8, inverse: bv8, crcLow: bv8, crcHigh: bv8, laser: bv8, stored: bv8): seq<Effect>
  {
    if id != SupportedProductId then []
    else [Read(RegInverseProductId)] + CrcEffects(id, inverse, crcLow, crcHigh, laser, stored)
  }

  /** The operations after a product ID check that passed: the inverse check, then the SROM CRC test. */
  function CrcEffects(id: bv8, inverse: bv8, crcLow: bv8, crcHigh: bv8, laser: bv8, stored: bv8): seq<Effect>
  {
    if inverse ^ id != 0xff then []
    else [Write(RegSromEnable, 0x15), DelayMs(10), Read(RegDataOutLower), Read(RegDataOutUpper)] + EnableEffects(crcLow, crcHigh, laser, stored)
  }

  /** The operations after the CRC was read: on a match, the laser is switched on and the resolution restored. */
  function EnableEffects(crcLow: bv8, crcHigh: bv8, laser: bv8, stored: bv8): seq<Effect>
  {
    if crcLow != CrcLow || crcHigh != CrcHigh then []
    else [Read(RegLaserCtrl0), Write(RegLaserCtrl0, LaserEnabled(laser))] + ResolutionEffects(stored)
  }




  /** The log that the CRC test, appended one operation at a time, leaves behind. */
  lemma CrcLog(log: seq<Effect>, rest: seq<Effect>)
    ensures log + [Write(RegSromEnable, 0x15)] + [DelayMs(10)] + [Read(RegDataOutLower)] + [Read(RegDataOutUpper)] + rest
      == log + ([Write(RegSromEnable, 0x15), DelayMs(10), Read(RegDataOutLower), Read(RegDataOutUpper)] + rest)
  {
  }

  /** The inverse product ID is asked for exactly when the product ID matched. */
  lemma InverseReadOnlyForSupportedId(id: bv8, inverse: bv8, crcLow: bv8, crcHigh: bv8, laser: bv8, stored: bv8)
    ensures Read(RegInverseProductId) in HealthEffects(id, inverse, crcLow, crcHigh, laser, stored)
      <==> id == SupportedProductId
  {
    var e := HealthEffects(id, inverse, crcLow, crcHigh, laser, stored);
    if id == SupportedProductId {
      assert e[0] == Read(RegInverseProductId);
    }
  }

  /**
   * The laser is switched on, and the resolution set, exactly for a healthy
   * sensor; the value written keeps the upper nibble the sensor reported.
   */
  lemma LaserOnlyWhenHealthy(id: bv8, inverse: bv8, crcLow: bv8, crcHigh: bv8, laser: bv8, stored: bv8)
    ensures (exists v :: Write(RegLaserCtrl0, v) in HealthEffects(id, inverse, crcLow, crcHigh, laser, stored))
      <==> Healthy(id, inverse, crcLow, crcHigh)
    ensures forall v :: (Write(RegLaserCtrl0, v) in HealthEffects(id, inverse, crcLow, crcHigh, laser, stored)
      ==> v == LaserEnabled(laser))
    ensures Healthy(id, inverse, crcLow, crcHigh)
      ==> Write(RegConfigurationI, RestoredResolution(stored)) in HealthEffects(id, inverse, crcLow, crcHigh, laser, stored)
  {
    EnableWrites(crcLow, crcHigh, laser, stored);
    if id == SupportedProductId && inverse ^ id == 0xff {
      var crc := [Write(RegSromEnable, 0x15), DelayMs(10), Read(RegDataOutLower), Read(RegDataOutUpper)];
      assert forall v :: Write(RegLaserCtrl0, v) !in crc;
      assert Write(RegConfigurationI, RestoredResolution(stored)) !in crc;
    }
    if Healthy(id, inverse, crcLow, crcHigh) {
      assert Write(RegLaserCtrl0, LaserEnabled(laser)) in HealthEffects(id, inverse, crcLow, crcHigh, laser, stored);
    }
  }

  /** The laser and resolution writes of the last step of the health check. */
  lemma EnableWrites(crcLow: bv8, crcHigh: bv8, laser: bv8, stored: bv8)
    ensures forall v :: (Write(RegLaserCtrl0, v) in EnableEffects(crcLow, crcHigh, laser, stored)
      <==> crcLow == CrcLow && crcHigh == CrcHigh && v == LaserEnabled(laser))
    ensures crcLow == CrcLow && crcHigh == CrcHigh
      ==> Write(RegConfigurationI, RestoredResolution(stored)) in EnableEffects(crcLow, crcHigh, laser, stored)
  {
    ResolutionWrites(stored);
    var r := ResolutionEffects(stored);
    assert forall v :: Write(RegLaserCtrl0, v) !in r;
  }

  /** The inverse check accepts exactly the bitwise complement of the product ID. */
  lemma InverseIsComplement(id: bv8, inverse: bv8)
    ensures inverse ^ id == 0xff <==> inverse == !id
  {
  }

  // ---------------------------------------------------------------------------
  // Motion read (loop)

  /** The Motion flags under which the loop reads new deltas: LP_VALID, no FAULT, MOT. */
  predicate MotionReady(motion: bv8)
  {
    var m := DecodeMotion(motion);
    m.lpValid && !m.fault && m.mot
  }

  /** In terms of the register byte: bits 7..5 read 1, 0, 1. */
  lemma MotionReadyBits(motion: bv8)
    ensures MotionReady(motion) <==> motion & 0xe0 == 0xa0
  {
    var m := DecodeMotion(motion);
    assert m.lpValid == Bit(motion, 5) && m.fault == Bit(motion, 6) && m.mot == Bit(motion, 7);
    MotionFlagBits(motion);
  }


  lemma MotionFlagBits(b: bv8)
    ensures Bit(b, 5) && !Bit(b, 6) && Bit(b, 7) <==> b & 0xe0 == 0xa0
  {
  }

  // ---------------------------------------------------------------------------
  // Calibration sub-mode (handleMouseButtons)

  /** The state the calibration branch works on: the globals and its two statics. */
  datatype Calibration = Calibration(
    mode: bool,
    waitForRelease: bool,
    completed: bool,
    resolution: bv8,
    gesture: bv8)

  /** A calibration step: the new state, the change to the vertical delta, and whether the resolution is applied. */
  datatype CalibrationResult = CalibrationResult(next: Calibration, dy: int, apply: bool)

  /** What the presses of one pass change: resolution, gesture mode, vertical movement, and whether to apply. */
  datatype Adjustment = Adjustment(resolution: bv8, gesture: bv8, dy: int, apply: bool)

  /** A left-button press: one step up and 10 counts down, or at the upper bound the "No" gesture. */
  function Raise(a: Adjustment): Adjustment
  {
    if a.resolution < MaxResolution then Adjustment(a.resolution + 1, a.gesture, a.dy + 10, true)
    else a.(gesture := 1)
  }

  /** A right-button press: one step down and 10 counts up, or at the lower bound the "No" gesture. */
  function Lower(a: Adjustment): Adjustment
  {
    if a.resolution > MinResolution then Adjustment(a.resolution - 1, a.gesture, a.dy - 10, true)
    else a.(gesture := 1)
  }

  /** A press adds its movement to what the pass already moved and keeps an earlier decision to apply. */
  lemma LowerAccumulates(a: Adjustment)
    ensures var b := Lower(Adjustment(a.resolution, a.gesture, 0, false));
      Lower(a) == Adjustment(b.resolution, b.gesture, a.dy + b.dy, a.apply || b.apply)
  {
  }

  /**
   * One pass of the calibration branch with the button levels `lmb`, `rmb`
   * (HIGH = released). Once the entry has completed and the buttons were
   * released, a left press raises and a right press lowers the resolution,
   * both in the same pass when both are pressed; a press arms the release
   * wait; both buttons pressed during the wait leave the mode with the "Yes"
   * gesture; both released complete the entry and re-arm.
   */
  function CalibrationStep(c: Calibration, lmb: bool, rmb: bool): CalibrationResult
  {
    var accepting := c.completed && !c.waitForRelease;
    var a0 := Adjustment(c.resolution, c.gesture, 0, false);
    var a := if accepting then Adjusted(a0, lmb, rmb) else a0;
    var exit := c.completed && c.waitForRelease && !lmb && !rmb;
    var released := lmb && rmb;
    var next := Calibration(
      c.mode && !exit,
      !released && (c.waitForRelease || (accepting && (!lmb || !rmb))),
      c.completed || released,
      a.resolution,
      if exit then 5 else a.gesture);
    CalibrationResult(next, a.dy, a.apply)
  }

  /** The presses of one accepting pass: the left button first, then the right one. */
  function Adjusted(a: Adjustment, lmb: bool, rmb: bool): Adjustment
  {
    var a1 := if !lmb then Raise(a) else a;
    if !rmb then Lower(a1) else a1
  }

  /** The resolution never leaves the calibration range. */
  lemma CalibrationKeepsRange(c: Calibration, lmb: bool, rmb: bool)
    requires InCalibrationRange(c.resolution)
    ensures InCalibrationRange(CalibrationStep(c, lmb, rmb).next.resolution)
  {
  }

  /** Calibration only ever starts gestures 1 and 5. */
  lemma CalibrationGestures(c: Calibration, lmb: bool, rmb: bool)
    ensures var g := CalibrationStep(c, lmb, rmb).next.gesture;
      g == c.gesture || g == 1 || g == 5
  {
  }

  /** Until the entry completed or while waiting for release, nothing is adjusted. */
  lemma CalibrationDebounced(c: Calibration, lmb: bool, rmb: bool)
    requires !c.completed || c.waitForRelease
    ensures var r := CalibrationStep(c, lmb, rmb);
      r.next.resolution == c.resolution && !r.apply && r.dy == 0
  {
  }

  /** Releasing both buttons completes the entry and re-arms the buttons, and never leaves the mode. */
  lemma CalibrationReleaseRearms(c: Calibration)
    ensures var r := CalibrationStep(c, true, true);
      r.next.completed && !r.next.waitForRelease && r.next.mode == c.mode
  {
  }

  /** The mode is left exactly by pressing both buttons while waiting for release, and then the "Yes" gesture starts. */
  lemma CalibrationExit(c: Calibration, lmb: bool, rmb: bool)
    requires c.mode
    ensures var r := CalibrationStep(c, lmb, rmb);
      !r.next.mode <==> c.completed && c.waitForRelease && !lmb && !rmb
    ensures var r := CalibrationStep(c, lmb, rmb);
      !r.next.mode ==> r.next.gesture == 5 && r.next.resolution == c.resolution
  {
  }

  /**
   * A single press of the left button: one step up and 10 counts of vertical
   * movement, or, at the upper bound, no change and the "No" gesture.
   */
  lemma CalibrationLeftPress(c: Calibration)
    requires c.completed && !c.waitForRelease
    ensures var r := CalibrationStep(c, false, true);
      r.next.waitForRelease &&
      (if c.resolution < MaxResolution
       then r.next.resolution == c.resolution + 1 && r.apply && r.dy == 10 && r.next.gesture == c.gesture
       else r.next.resolution == c.resolution && !r.apply && r.dy == 0 && r.next.gesture == 1)
  {
  }

  /** A single press of the right button: one step down, or, at the lower bound, the "No" gesture. */
  lemma CalibrationRightPress(c: Calibration)
    requires c.completed && !c.waitForRelease
    ensures var r := CalibrationStep(c, true, false);
      r.next.waitForRelease &&
      (if c.resolution > MinResolution
       then r.next.resolution == c.resolution - 1 && r.apply && r.dy == -10 && r.next.gesture == c.gesture
       else r.next.resolution == c.resolution && !r.apply && r.dy == 0 && r.next.gesture == 1)
  {
  }

  /**
   * After any press the next adjustment needs both buttons released first:
   * every sequence of passes with some button held keeps the resolution.
   */
  lemma {:induction false} CalibrationOnePerPress(c: Calibration, presses: seq<(bool, bool)>)
    requires c.waitForRelease
    requires forall i :: 0 <= i < |presses| ==> !(presses[i].0 && presses[i].1)
    ensures CalibrationRun(c, presses).resolution == c.resolution
    decreases |presses|
  {
    if presses != [] {
      var next := CalibrationStep(c, presses[0].0, presses[0].1).next;
      assert next.waitForRelease && next.resolution == c.resolution;
      CalibrationOnePerPress(next, presses[1..]);
    }
  }

  /** The state after successive passes with the given button levels. */
  function CalibrationRun(c: Calibration, presses: seq<(bool, bool)>): Calibration
    decreases |presses|
  {
    if presses == [] then c
    else CalibrationRun(CalibrationStep(c, presses[0].0, presses[0].1).next, presses[1..])
  }

  // ---------------------------------------------------------------------------
  // Gestures (handleMouseButtons)

  /** One gesture step: the next gesture mode and the cursor movement added. */
  datatype GestureMove = GestureMove(next: bv8, dx: int, dy: int)

  /**
   * Modes 1..4 draw "No" (left 20, right 40, left 20, rest), modes 5..7 draw
   * "Yes" (down-right 100, up-right 100, rest); any other mode does nothing.
   */
  function GestureStep(mode: bv8): GestureMove
  {
    if mode == 1 then GestureMove(2, -20, 0)
    else if mode == 2 then GestureMove(3, 40, 0)
    else if mode == 3 then GestureMove(4, -20, 0)
    else if mode == 4 then GestureMove(0, 0, 0)
    else if mode == 5 then GestureMove(6, 100, 100)
    else if mode == 6 then GestureMove(7, 100, -100)
    else if mode == 7 then GestureMove(0, 0, 0)
    else GestureMove(mode, 0, 0)
  }

  /** The gesture modes 0..7 are closed under a step. */
  lemma GestureModes(mode: bv8)
    requires mode <= 7
    ensures GestureStep(mode).next <= 7
  {
  }

  /** The final mode and the total movement after `n` passes. */
  function GestureRun(mode: bv8, n: nat): GestureMove
    decreases n
  {
    if n == 0 then GestureMove(mode, 0, 0)
    else
      var s := GestureStep(mode);
      var rest := GestureRun(s.next, n - 1);
      GestureMove(rest.next, s.dx + rest.dx, s.dy + rest.dy)
  }

  /** "No" takes four passes and brings the cursor back; "Yes" takes three and ends 200 counts to the right. */
  lemma GestureTotals()
    ensures GestureRun(1, 4) == GestureMove(0, 0, 0)
    ensures GestureRun(5, 3) == GestureMove(0, 200, 0)
  {
    assert GestureRun(0, 0) == GestureMove(0, 0, 0);
    assert GestureRun(4, 1) == GestureMove(0, 0, 0);
    assert GestureRun(3, 2) == GestureMove(0, -20, 0);
    assert GestureRun(2, 3) == GestureMove(0, 20, 0);
    assert GestureRun(7, 1) == GestureMove(0, 0, 0);
    assert GestureRun(6, 2) == GestureMove(0, 100, -100);
  }

  /** The number of passes a gesture mode still needs to reach mode 0. */
  function Remaining(mode: bv8): nat
  {
    if mode == 0 || mode > 7 then 0 else if mode <= 4 then 5 - mode as nat else 8 - mode as nat
  }

  /** Every gesture ends within four passes. */
  lemma {:induction false} GestureSettles(mode: bv8, n: nat)
    requires mode <= 7 && n >= Remaining(mode)
    ensures Remaining(mode) <= 4
    ensures GestureRun(mode, n).next == 0
    decreases n
  {
    if n > 0 && mode != 0 {
      GestureSettles(GestureStep(mode).next, n - 1);
    } else if n > 0 {
      IdleStays(mode, n);
    }
  }

  /** Mode 0 and the undefined modes above 7 never move the cursor or change. */
  lemma {:induction false} IdleStays(mode: bv8, n: nat)
    requires mode == 0 || mode > 7
    ensures GestureRun(mode, n) == GestureMove(mode, 0, 0)
  {
    if n > 0 {
      IdleStays(mode, n - 1);
    }
  }

  // ---------------------------------------------------------------------------
  // The firmware state

  /** The globals, the static locals of `handleMouseButtons` and `loop`, the driven pins and the environment. */
  class Firmware {
    var adnsEnabled: bool
    var resolution: bv8
    var calibrationMode: bool
    var gestureMode: bv8
    var waitForRelease: bool
    var enteringCompleted: bool
    var deltaX: int
    var deltaY: int
    var horPhase: nat
    var verPhase: nat
    /** The levels of H, HQ, V and VQ. */
    var lines: Lines
    var lmbOut: bool
    var rmbOut: bool
    /** The calibration cell of the EEPROM. */
    var eeprom: bv8
    /** Whether EEPROM writes succeed. */
    const eepromWritable: bool
    /** The sensor's answers, by position of the read in the effect log; a read past the script is answered 0. */
    const script: seq<bv8>
    var effects: seq<Effect>
    /** The lines after each `SetQuadraturePhases`. */
    var pulses: seq<Lines>

    /**
     * The phases stay in 0..3 and the lines show them once driven; the
     * deltas are `int16_t` values; the gesture mode is one of 0..7; an
     * enabled sensor runs at a calibration-range resolution; calibration
     * mode implies an enabled sensor.
     */
    predicate Valid()
      reads this
    {
      Driven() && InRange(deltaX) && InRange(deltaY) && gestureMode <= 7 &&
      (adnsEnabled ==> InCalibrationRange(resolution)) &&
      (calibrationMode ==> adnsEnabled)
    }

    /** The phases stay in 0..3 and, once driven, the lines show them and are the last pulse. */
    predicate Driven()
      reads this`horPhase, this`verPhase, this`pulses, this`lines
    {
      horPhase < 4 && verPhase < 4 &&
      (pulses != [] ==> lines == Last(pulses) && lines == Lines(Gray(horPhase), Gray(verPhase)))
    }

    /** The sensor's answer to the read at position `k` of the effect log. */
    function Answer(k: nat): bv8
    {
      if k < |script| then script[k] else 0
    }

    function CalibrationState(): Calibration
      reads this`calibrationMode, this`waitForRelease, this`enteringCompleted, this`resolution, this`gestureMode
    {
      Calibration(calibrationMode, waitForRelease, enteringCompleted, resolution, gestureMode)
    }

    /**
     * The globals and statics at their initial values, before `setup`: the
     * sensor disabled, no calibration, no gesture, no pending movement, both
     * phases 0. The EEPROM cell, its writability, the sensor's answers and
     * the levels of the port pins are given.
     */
    constructor (stored: bv8, writable: bool, answers: seq<bv8>, lines0: Lines, lmb0: bool, rmb0: bool)
      ensures Valid()
      ensures !adnsEnabled && resolution == 0 && !calibrationMode && gestureMode == 0
      ensures !waitForRelease && !enteringCompleted && deltaX == 0 && deltaY == 0 && horPhase == 0 && verPhase == 0
      ensures lines == lines0 && lmbOut == lmb0 && rmbOut == rmb0 && eeprom == stored
      ensures eepromWritable == writable && script == answers && effects == [] && pulses == []
    {
      adnsEnabled := false;
      resolution := 0;
      calibrationMode := false;
      gestureMode := 0;
      waitForRelease := false;
      enteringCompleted := false;
      deltaX, deltaY := 0, 0;
      horPhase, verPhase := 0, 0;
      lines := lines0;
      lmbOut, rmbOut := lmb0, rmb0;
      eeprom := stored;
      eepromWritable := writable;
      script := answers;
      effects := [];
      pulses := [];
    }

    /**
     * What `ADNS_init` leaves behind when it starts from log `e0`, EEPROM
     * cell `stored` and resolution `r0`: the sensor is enabled exactly when
     * its product ID (the 11th answer), inverse product ID and SROM CRC are
     * the expected ones; the log holds the power-up operations and then the
     * health chain as far as it got, followed by `after`; only a healthy
     * sensor has its resolution restored from the EEPROM.
     */
    predicate Initialized(e0: seq<Effect>, stored: bv8, r0: bv8, after: seq<Effect>)
      reads this`adnsEnabled, this`effects, this`resolution, this`eeprom
    {
      var n := |e0|;
      var healthy := Healthy(Answer(n + 10), Answer(n + 11), Answer(n + 14), Answer(n + 15));
      && adnsEnabled == healthy
      && effects == e0 + PowerUpEffects()
           + HealthEffects(Answer(n + 10), Answer(n + 11), Answer(n + 14), Answer(n + 15), Answer(n + 16), stored)
           + after
      && (if healthy
          then resolution == RestoredResolution(stored) && eeprom == (if eepromWritable then resolution else stored)
          else resolution == r0 && eeprom == stored)
    }

    /**
     * `setup`: both button outputs are released, calibration mode is entered
     * when both buttons are held (LOW) at power-up, `SPI_init` deselects the
     * sensor, `ADNS_init` brings it up, and `ADNS_dispRegisters` reads nine
     * registers whether or not the sensor came up.
     */
    method Setup(lmbIn: bool, rmbIn: bool)
      requires Valid() && !adnsEnabled && !calibrationMode
      modifies this`lmbOut, this`rmbOut, this`calibrationMode, this`effects, this`eeprom, this`resolution, this`adnsEnabled
      ensures Valid()
      ensures lmbOut && rmbOut
      ensures Initialized(old(effects) + [Deselect], old(eeprom), old(resolution), DisplayEffects())
      ensures calibrationMode == (!lmbIn && !rmbIn && adnsEnabled)
    {
      StartButtons(lmbIn, rmbIn);
      Log(Deselect);
      InitAndDisplay();
    }

    /** `ADNS_init` followed by the reads of `ADNS_dispRegisters`. */
    method InitAndDisplay()
      requires !adnsEnabled
      modifies this`effects, this`eeprom, this`resolution, this`adnsEnabled, this`calibrationMode
      ensures Initialized(old(effects), old(eeprom), old(resolution), DisplayEffects())
      ensures adnsEnabled ==> InCalibrationRange(resolution)
      ensures calibrationMode == (old(calibrationMode) && adnsEnabled)
    {
      Init();
      DisplayRegisters();
    }

    /** `ADNS_dispRegisters` without the text it prints: the nine register reads, in order. */
    method DisplayRegisters()
      modifies this`effects
      ensures effects == old(effects) + DisplayEffects()
    {
      var e0 := effects;
      var id := ReadReg(RegProductId);
      var revision := ReadReg(RegRevisionId);
      var motion := ReadReg(RegMotion);
      var observation := ReadReg(RegObservation);
      var sromId := ReadReg(RegSromId);
      var config1 := ReadReg(RegConfigurationI);
      var config2 := ReadReg(RegConfigurationII);
      var config4 := ReadReg(RegConfigurationIV);
      var config5 := ReadReg(RegConfigurationV);
      assert effects == e0 + DisplayEffects();
    }

    /** Both button outputs released; calibration requested when both buttons are held (LOW). */
    method StartButtons(lmbIn: bool, rmbIn: bool)
      requires !calibrationMode
      modifies this`lmbOut, this`rmbOut, this`calibrationMode
      ensures lmbOut && rmbOut
      ensures calibrationMode == (!lmbIn && !rmbIn)
    {
      lmbOut := true;
      rmbOut := true;
      if !lmbIn && !rmbIn {
        calibrationMode := true;
      }
    }

    method ReadReg(reg: bv8) returns (value: bv8)
      modifies this`effects
      ensures value == Answer(|old(effects)|)
      ensures effects == old(effects) + [Read(reg)]
    {
      value := Answer(|effects|);
      effects := effects + [Read(reg)];
    }

    method WriteReg(reg: bv8, value: bv8)
      modifies this`effects
      ensures effects == old(effects) + [Write(reg, value)]
    {
      effects := effects + [Write(reg, value)];
    }

    method Log(e: Effect)
      modifies this`effects
      ensures effects == old(effects) + [e]
    {
      effects := effects + [e];
    }

    method EeReadByte() returns (value: bv8)
      modifies this`effects
      ensures value == eeprom
      ensures effects == old(effects) + [EeRead]
    {
      value := eeprom;
      effects := effects + [EeRead];
    }

    /** Writes the calibration cell; a failed write leaves it as it was. */
    method EeWriteByte(value: bv8) returns (ok: bool)
      modifies this`effects, this`eeprom
      ensures ok == eepromWritable
      ensures eeprom == if ok then value else old(eeprom)
      ensures effects == old(effects) + [EeWrite(value)]
    {
      ok := eepromWritable;
      if ok {
        eeprom := value;
      }
      effects := effects + [EeWrite(value)];
    }

    /**
     * `ADNS_set_resolution`: the stored resolution, or the default when it is
     * out of range, is applied to the sensor and, when the EEPROM accepts
     * writes, is what the EEPROM holds afterwards.
     */
    method SetResolution()
      modifies this`effects, this`eeprom, this`resolution
      ensures resolution == RestoredResolution(old(eeprom))
      ensures effects == old(effects) + ResolutionEffects(old(eeprom))
      ensures eeprom == if eepromWritable then resolution else old(eeprom)
    {
      var e0 := effects;
      resolution := EeReadByte();
      if resolution < MinResolution || resolution > MaxResolution {
        resolution := DefaultResolution;
        var ok := EeWriteByte(resolution);
      }
      WriteReg(RegConfigurationI, resolution);
      var stored := ReadReg(RegConfigurationI);
      assert effects == e0 + ResolutionEffects(old(eeprom));
    }

    /**
     * `ADNS_init`: reset, power-up reads, firmware upload, then the health
     * chain. The sensor is enabled exactly when its product ID, inverse
     * product ID and SROM CRC are the expected ones; only then is the laser
     * switched on and the resolution restored. A sensor left disabled turns
     * calibration mode off.
     */
    method Init()
      requires !adnsEnabled
      modifies this`effects, this`eeprom, this`resolution, this`adnsEnabled, this`calibrationMode
      ensures Initialized(old(effects), old(eeprom), old(resolution), [])
      ensures adnsEnabled ==> InCalibrationRange(resolution)
      ensures calibrationMode == (old(calibrationMode) && adnsEnabled)
    {
      var n := |effects|;
      PowerUp();
      assert |effects| == n + 11;
      var id := Answer(n + 10);
      HealthCheck(id);
      if !adnsEnabled {
        calibrationMode := false;
      }
    }

    /** The operations up to the read of the product ID, whose answer is then `Answer(|old(effects)| + 10)`. */
    method PowerUp()
      modifies this`effects
      ensures effects == old(effects) + PowerUpEffects()
    {
      var e0 := effects;
      Log(Select);
      Log(Deselect);
      WriteReg(RegPowerUpReset, 0x5a);
      Log(DelayMs(50));
      var motion := ReadReg(RegMotion);
      var xl := ReadReg(RegDeltaXL);
      var xh := ReadReg(RegDeltaXH);
      var yl := ReadReg(RegDeltaYL);
      var yh := ReadReg(RegDeltaYH);
      Log(Upload);
      var id := ReadReg(RegProductId);
      assert effects == e0 + PowerUpEffects();
    }

    /** The health chain after the product ID `id` was read: the inverse product ID is read only for the supported ID. */
    method HealthCheck(id: bv8)
      modifies this`effects, this`eeprom, this`resolution, this`adnsEnabled
      ensures var n := |old(effects)|;
        var healthy := Healthy(id, Answer(n), Answer(n + 3), Answer(n + 4));
        && adnsEnabled == (old(adnsEnabled) || healthy)
        && effects == old(effects) + HealthEffects(id, Answer(n), Answer(n + 3), Answer(n + 4), Answer(n + 5), old(eeprom))
        && (if healthy
            then resolution == RestoredResolution(old(eeprom)) && eeprom == (if eepromWritable then resolution else old(eeprom))
            else resolution == old(resolution) && eeprom == old(eeprom))
    {
      var e0 := effects;
      if id == SupportedProductId {
        var inverse := ReadReg(RegInverseProductId);
        var e1 := effects;
        CrcCheck(id, inverse);
        Spi.AppendAssoc(e0, [Read(RegInverseProductId)], effects[|e1|..]);
      }
    }

    /** The inverse check, then the SROM CRC test: the CRC is read only when the inverse matched. */
    method CrcCheck(id: bv8, inverse: bv8)
      requires id == SupportedProductId
      modifies this`effects, this`eeprom, this`resolution, this`adnsEnabled
      ensures var n := |old(effects)|;
        var healthy := Healthy(id, inverse, Answer(n + 2), Answer(n + 3));
        && adnsEnabled == (old(adnsEnabled) || healthy)
        && effects == old(effects) + CrcEffects(id, inverse, Answer(n + 2), Answer(n + 3), Answer(n + 4), old(eeprom))
        && (if healthy
            then resolution == RestoredResolution(old(eeprom)) && eeprom == (if eepromWritable then resolution else old(eeprom))
            else resolution == old(resolution) && eeprom == old(eeprom))
    {
      var e0 := effects;
      if inverse ^ id == 0xff {
        WriteReg(RegSromEnable, 0x15);
        Log(DelayMs(10));
        var crcLow := ReadReg(RegDataOutLower);
        var crcHigh := ReadReg(RegDataOutUpper);
        var e1 := effects;
        Enable(crcLow, crcHigh);
        CrcLog(e0, effects[|e1|..]);
      }
    }

    /** On a matching CRC: the sensor is enabled, the laser switched on, the resolution restored. */
    method Enable(crcLow: bv8, crcHigh: bv8)
      modifies this`effects, this`eeprom, this`resolution, this`adnsEnabled
      ensures var n := |old(effects)|;
        var ok := crcLow == CrcLow && crcHigh == CrcHigh;
        && adnsEnabled == (old(adnsEnabled) || ok)
        && effects == old(effects) + EnableEffects(crcLow, crcHigh, Answer(n), old(eeprom))
        && (if ok
            then resolution == RestoredResolution(old(eeprom)) && eeprom == (if eepromWritable then resolution else old(eeprom))
            else resolution == old(resolution) && eeprom == old(eeprom))
    {
      var e0 := effects;
      if crcLow == CrcLow && crcHigh == CrcHigh {
        adnsEnabled := true;
        var laser := ReadReg(RegLaserCtrl0);
        WriteReg(RegLaserCtrl0, LaserEnabled(laser));
        var e1 := effects;
        SetResolution();
        assert effects == e0 + ([Read(RegLaserCtrl0), Write(RegLaserCtrl0, LaserEnabled(laser))] + effects[|e1|..]);
      }
    }

    /**
     * `SetQuadraturePhases`: each channel is driven with the Gray levels of
     * its phase; a phase outside 0..3 leaves that channel's lines as they
     * were.
     */
    method SetQuadraturePhases(hor: nat, ver: nat)
      modifies this`lines, this`pulses
      ensures lines.hor == if hor < 4 then Gray(hor) else old(lines.hor)
      ensures lines.ver == if ver < 4 then Gray(ver) else old(lines.ver)
      ensures pulses == old(pulses) + [lines]
    {
      if hor == 0 {
        lines := lines.(hor := Pair(false, false));
      } else if hor == 1 {
        lines := lines.(hor := Pair(true, false));
      } else if hor == 2 {
        lines := lines.(hor := Pair(true, true));
      } else if hor == 3 {
        lines := lines.(hor := Pair(false, true));
      }
      if ver == 0 {
        lines := lines.(ver := Pair(false, false));
      } else if ver == 1 {
        lines := lines.(ver := Pair(true, false));
      } else if ver == 2 {
        lines := lines.(ver := Pair(true, true));
      } else if ver == 3 {
        lines := lines.(ver := Pair(false, true));
      }
      pulses := pulses + [lines];
    }

    /** One pass of the drain loop: each axis steps toward zero and its phase follows; the lines are driven. */
    method DrainStep()
      requires horPhase < 4 && verPhase < 4
      modifies this`deltaX, this`deltaY, this`horPhase, this`verPhase, this`lines, this`pulses
      ensures deltaX == Toward(old(deltaX)) && deltaY == Toward(old(deltaY))
      ensures horPhase == Advance(old(horPhase), old(deltaX)) && verPhase == Advance(old(verPhase), old(deltaY))
      ensures lines == Lines(Gray(horPhase), Gray(verPhase))
      ensures pulses == old(pulses) + [lines]
    {
      if deltaX > 0 {
        deltaX := deltaX - 1;
        horPhase := (horPhase + 1) % 4;
      }
      if deltaX < 0 {
        deltaX := deltaX + 1;
        horPhase := (horPhase + 3) % 4;
      }
      if deltaY > 0 {
        deltaY := deltaY - 1;
        verPhase := (verPhase + 1) % 4;
      }
      if deltaY < 0 {
        deltaY := deltaY + 1;
        verPhase := (verPhase + 3) % 4;
      }
      SetQuadraturePhases(horPhase, verPhase);
    }

    /**
     * The drain loop: the lines go through exactly the path `DrainPath` of
     * the pending deltas (so the Amiga counts the deltas, see
     * `Quadrature.DrainCounts`), the deltas end at zero and each phase ends at
     * (start + delta) mod 4.
     */
    method Drain()
      requires Driven()
      modifies this`deltaX, this`deltaY, this`horPhase, this`verPhase, this`lines, this`pulses
      ensures Driven()
      ensures deltaX == 0 && deltaY == 0
      ensures horPhase == (old(horPhase) + old(deltaX)) % 4 && verPhase == (old(verPhase) + old(deltaY)) % 4
      ensures pulses == old(pulses) + DrainPath(old(horPhase), old(verPhase), old(deltaX), old(deltaY))
      ensures old(deltaX) == 0 && old(deltaY) == 0 ==> lines == old(lines)
    {
      ghost var path := DrainPath(horPhase, verPhase, deltaX, deltaY);
      ghost var h0, v0, dx0, dy0 := horPhase, verPhase, deltaX, deltaY;
      while deltaX != 0 || deltaY != 0
        invariant Driven()
        invariant DrainEnd(horPhase, deltaX) == DrainEnd(h0, dx0) && DrainEnd(verPhase, deltaY) == DrainEnd(v0, dy0)
        invariant old(pulses) + path == pulses + DrainPath(horPhase, verPhase, deltaX, deltaY)
        invariant |pulses| >= |old(pulses)| && (|pulses| == |old(pulses)| ==> lines == old(lines))
        decreases Abs(deltaX) + Abs(deltaY)
      {
        var before := pulses;
        ghost var h, v, dx, dy := horPhase, verPhase, deltaX, deltaY;
        DrainStep();
        assert DrainPath(h, v, dx, dy) == [lines] + DrainPath(horPhase, verPhase, deltaX, deltaY);
        Spi.AppendAssoc(before, [lines], DrainPath(horPhase, verPhase, deltaX, deltaY));
      }
      DrainEndMod(h0, dx0);
      DrainEndMod(v0, dy0);
    }

    /**
     * The motion read of `loop`: with the sensor enabled, the Motion register
     * is read, and only when it reports LP_VALID, no FAULT and MOT are the
     * four delta registers read, low byte before high byte, and the deltas
     * replaced by the signed 16-bit values they form.
     */
    method PollSensor()
      modifies this`effects, this`deltaX, this`deltaY
      ensures var n := |old(effects)|;
        if !adnsEnabled then effects == old(effects) && deltaX == old(deltaX) && deltaY == old(deltaY)
        else if !MotionReady(Answer(n)) then
          effects == old(effects) + [Read(RegMotion)] && deltaX == old(deltaX) && deltaY == old(deltaY)
        else
          && effects == old(effects) + [Read(RegMotion), Read(RegDeltaXL), Read(RegDeltaXH), Read(RegDeltaYL), Read(RegDeltaYH)]
          && deltaX == Delta(Answer(n + 2), Answer(n + 1))
          && deltaY == Delta(Answer(n + 4), Answer(n + 3))
    {
      if adnsEnabled {
        var e0 := effects;
        var motion := ReadReg(RegMotion);
        var m := DecodeMotion(motion);
        if m.lpValid && !m.fault {
          if m.mot {
            deltaX := ReadDelta(RegDeltaXL, RegDeltaXH);
            deltaY := ReadDelta(RegDeltaYL, RegDeltaYH);
            assert effects == e0 + [Read(RegMotion), Read(RegDeltaXL), Read(RegDeltaXH), Read(RegDeltaYL), Read(RegDeltaYH)];
          }
        }
      }
    }

    /** A delta register pair, low byte read first: the signed 16-bit value of high byte and low byte. */
    method ReadDelta(low: bv8, high: bv8) returns (d: int)
      modifies this`effects
      ensures var n := |old(effects)|;
        d == Delta(Answer(n + 1), Answer(n)) && InRange(d)
      ensures effects == old(effects) + [Read(low), Read(high)]
    {
      var lo := ReadReg(low);
      var hi := ReadReg(high);
      var word := Word(hi, lo);
      d := Signed16(word);
      SignedWord(hi, lo);
      DeltaBytes(hi, lo);
    }

    /**
     * The calibration branch of `handleMouseButtons`, with the buttons at
     * levels `lmb`, `rmb`: the state moves as `CalibrationStep` says, the
     * vertical delta takes the step's movement as an `int16_t`, and an
     * applied resolution is written to the sensor and the EEPROM and read
     * back.
     */
    method CalibrationButtons(lmb: bool, rmb: bool)
      requires InRange(deltaY)
      modifies this`calibrationMode, this`waitForRelease, this`enteringCompleted, this`resolution, this`gestureMode
      modifies this`deltaY, this`effects, this`eeprom
      ensures var r := CalibrationStep(old(CalibrationState()), lmb, rmb);
        && CalibrationState() == r.next
        && deltaY == Wrap16(old(deltaY) + r.dy)
        && Applied(r, old(effects), old(eeprom))
    {
      var apply := false;
      if enteringCompleted {
        if !waitForRelease {
          apply := AdjustResolution(lmb, rmb);
        } else {
          if !lmb && !rmb {
            calibrationMode := false;
            gestureMode := 5;
          }
        }
      }
      if rmb && lmb {
        enteringCompleted := true;
        waitForRelease := false;
      }
      if apply {
        ApplyResolution();
      }
    }

    /** The presses of an accepting pass, as `Adjusted` says; returns whether the resolution changed. */
    method AdjustResolution(lmb: bool, rmb: bool) returns (apply: bool)
      requires InRange(deltaY)
      modifies this`waitForRelease, this`resolution, this`gestureMode, this`deltaY
      ensures var a := Adjusted(Adjustment(old(resolution), old(gestureMode), 0, false), lmb, rmb);
        && resolution == a.resolution && gestureMode == a.gesture && apply == a.apply
        && deltaY == Wrap16(old(deltaY) + a.dy)
      ensures waitForRelease == (old(waitForRelease) || !lmb || !rmb)
    {
      apply := false;
      ghost var dy0 := deltaY;
      ghost var a := Adjustment(resolution, gestureMode, 0, false);
      if !lmb {
        waitForRelease := true;
        var raised := RaiseResolution();
        if raised {
          apply := true;
        }
        a := Raise(a);
      }
      assert resolution == a.resolution && gestureMode == a.gesture && apply == a.apply && deltaY == Wrap16(dy0 + a.dy);
      if !rmb {
        waitForRelease := true;
        var lowered := LowerResolution();
        if lowered {
          apply := true;
        }
        LowerAccumulates(a);
        WrapAdd(dy0 + a.dy, Lower(Adjustment(a.resolution, a.gesture, 0, false)).dy);
        a := Lower(a);
      }
    }

    /** A left press in calibration mode (`a` of the pass as in `Raise`). */
    method RaiseResolution() returns (applied: bool)
      requires InRange(deltaY)
      modifies this`resolution, this`gestureMode, this`deltaY
      ensures var a := Raise(Adjustment(old(resolution), old(gestureMode), 0, false));
        resolution == a.resolution && gestureMode == a.gesture && deltaY == Wrap16(old(deltaY) + a.dy) && applied == a.apply
    {
      applied := false;
      if resolution < MaxResolution {
        resolution := resolution + 1;
        applied := true;
        deltaY := Wrap16(deltaY + 10);
      } else {
        gestureMode := 1;
      }
    }

    /** A right press in calibration mode, as in `Lower`. */
    method LowerResolution() returns (applied: bool)
      requires InRange(deltaY)
      modifies this`resolution, this`gestureMode, this`deltaY
      ensures var a := Lower(Adjustment(old(resolution), old(gestureMode), 0, false));
        resolution == a.resolution && gestureMode == a.gesture && deltaY == Wrap16(old(deltaY) + a.dy) && applied == a.apply
    {
      applied := false;
      if resolution > MinResolution {
        resolution := resolution - 1;
        applied := true;
        deltaY := Wrap16(deltaY - 10);
      } else {
        gestureMode := 1;
      }
    }

    /** A changed resolution is written to the sensor and the EEPROM, and read back after 100 ms. */
    method ApplyResolution()
      modifies this`effects, this`eeprom
      ensures effects == old(effects) + [Write(RegConfigurationI, resolution), EeWrite(resolution), DelayMs(100), Read(RegConfigurationI)]
      ensures eeprom == if eepromWritable then resolution else old(eeprom)
    {
      var e0 := effects;
      WriteReg(RegConfigurationI, resolution);
      var ok := EeWriteByte(resolution);
      Log(DelayMs(100));
      var stored := ReadReg(RegConfigurationI);
      assert effects == e0 + [Write(RegConfigurationI, resolution), EeWrite(resolution), DelayMs(100), Read(RegConfigurationI)];
    }

    /** Outside calibration mode each button output follows its input. */
    method PassButtons(lmb: bool, rmb: bool)
      modifies this`lmbOut, this`rmbOut
      ensures lmbOut == lmb && rmbOut == rmb
    {
      if lmb {
        lmbOut := true;
      } else {
        lmbOut := false;
      }
      if rmb {
        rmbOut := true;
      } else {
        rmbOut := false;
      }
    }

    /** The gesture part of `handleMouseButtons`: one `GestureStep`, its movement added to the deltas as `int16_t`. */
    method DrawGesture()
      requires InRange(deltaX) && InRange(deltaY)
      modifies this`gestureMode, this`deltaX, this`deltaY
      ensures var s := GestureStep(old(gestureMode));
        gestureMode == s.next && deltaX == Wrap16(old(deltaX) + s.dx) && deltaY == Wrap16(old(deltaY) + s.dy)
    {
      if gestureMode == 1 {
        deltaX := Wrap16(deltaX - 20);
        gestureMode := 2;
      } else if gestureMode == 2 {
        deltaX := Wrap16(deltaX + 40);
        gestureMode := 3;
      } else if gestureMode == 3 {
        deltaX := Wrap16(deltaX - 20);
        gestureMode := 4;
      } else if gestureMode == 4 {
        gestureMode := 0;
      } else if gestureMode == 5 {
        deltaX := Wrap16(deltaX + 100);
        deltaY := Wrap16(deltaY + 100);
        gestureMode := 6;
      } else if gestureMode == 6 {
        deltaX := Wrap16(deltaX + 100);
        deltaY := Wrap16(deltaY - 100);
        gestureMode := 7;
      } else if gestureMode == 7 {
        gestureMode := 0;
      }
    }

    /**
     * A pass outside calibration: the calibration globals are as in `before`
     * except that the gesture took one step, and the deltas (`x0`, `y0`
     * before) moved by that step.
     */
    predicate Gestured(before: Calibration, x0: int, y0: int)
      reads this`calibrationMode, this`waitForRelease, this`enteringCompleted, this`resolution, this`gestureMode
      reads this`deltaX, this`deltaY
    {
      var g := GestureStep(before.gesture);
      && CalibrationState() == before.(gesture := g.next)
      && deltaX == Wrap16(x0 + g.dx) && deltaY == Wrap16(y0 + g.dy)
    }

    /**
     * A calibration pass from state `before`, deltas `x0`, `y0`, log `e0` and
     * EEPROM cell `stored`: the calibration step with the buttons, then one
     * gesture step; the vertical delta takes the step's movement first. An
     * applied resolution is written to the sensor and the EEPROM and read
     * back; otherwise the log and the EEPROM are untouched.
     */
    predicate Calibrated(before: Calibration, x0: int, y0: int, e0: seq<Effect>, stored: bv8, lmb: bool, rmb: bool)
      reads this`calibrationMode, this`waitForRelease, this`enteringCompleted, this`resolution, this`gestureMode
      reads this`deltaX, this`deltaY, this`effects, this`eeprom
    {
      var c := CalibrationStep(before, lmb, rmb);
      Gestured(c.next, x0, Wrap16(y0 + c.dy)) && Applied(c, e0, stored)
    }

    /**
     * The resolution decided by calibration step `c`, if any, was written to
     * the sensor and the EEPROM and read back after log `e0`; otherwise the
     * log and the EEPROM cell (`stored`) are untouched.
     */
    predicate Applied(c: CalibrationResult, e0: seq<Effect>, stored: bv8)
      reads this`effects, this`eeprom
    {
      if c.apply
      then effects == e0 + [Write(RegConfigurationI, c.next.resolution), EeWrite(c.next.resolution), DelayMs(100), Read(RegConfigurationI)]
        && eeprom == (if eepromWritable then c.next.resolution else stored)
      else effects == e0 && eeprom == stored
    }

    /**
     * `handleMouseButtons` with the buttons at levels `lmb`, `rmb`: the
     * calibration branch or the passthrough, then one gesture step.
     */
    method HandleMouseButtons(lmb: bool, rmb: bool)
      requires Valid()
      modifies this`calibrationMode, this`waitForRelease, this`enteringCompleted, this`resolution, this`gestureMode
      modifies this`deltaX, this`deltaY, this`effects, this`eeprom, this`lmbOut, this`rmbOut
      ensures Valid()
      ensures !old(calibrationMode) ==>
        && lmbOut == lmb && rmbOut == rmb
        && Gestured(old(CalibrationState()), old(deltaX), old(deltaY))
        && effects == old(effects) && eeprom == old(eeprom)
      ensures old(calibrationMode) ==>
        && lmbOut == old(lmbOut) && rmbOut == old(rmbOut)
        && Calibrated(old(CalibrationState()), old(deltaX), old(deltaY), old(effects), old(eeprom), lmb, rmb)
    {
      if calibrationMode {
        CalibrationPass(lmb, rmb);
      } else {
        NormalPass(lmb, rmb);
      }
    }

    /** `handleMouseButtons` in calibration mode. */
    method CalibrationPass(lmb: bool, rmb: bool)
      requires Valid() && calibrationMode
      modifies this`calibrationMode, this`waitForRelease, this`enteringCompleted, this`resolution, this`gestureMode
      modifies this`deltaX, this`deltaY, this`effects, this`eeprom
      ensures Valid()
      ensures Calibrated(old(CalibrationState()), old(deltaX), old(deltaY), old(effects), old(eeprom), lmb, rmb)
    {
      ButtonsPass(lmb, rmb);
      GesturePass();
    }

    /** The calibration step with the buttons, keeping the firmware state valid. */
    method ButtonsPass(lmb: bool, rmb: bool)
      requires Valid() && calibrationMode
      modifies this`calibrationMode, this`waitForRelease, this`enteringCompleted, this`resolution, this`gestureMode
      modifies this`deltaY, this`effects, this`eeprom
      ensures Valid()
      ensures var r := CalibrationStep(old(CalibrationState()), lmb, rmb);
        && CalibrationState() == r.next
        && deltaY == Wrap16(old(deltaY) + r.dy)
        && Applied(r, old(effects), old(eeprom))
    {
      CalibrationButtons(lmb, rmb);
      CalibrationKeepsRange(old(CalibrationState()), lmb, rmb);
      CalibrationGestures(old(CalibrationState()), lmb, rmb);
      assert horPhase == old(horPhase) && verPhase == old(verPhase) && pulses == old(pulses) && lines == old(lines);
    }

    /** `handleMouseButtons` outside calibration mode. */
    method NormalPass(lmb: bool, rmb: bool)
      requires Valid() && !calibrationMode
      modifies this`gestureMode, this`deltaX, this`deltaY, this`lmbOut, this`rmbOut
      ensures Valid()
      ensures lmbOut == lmb && rmbOut == rmb
      ensures Gestured(old(CalibrationState()), old(deltaX), old(deltaY))
    {
      PassButtons(lmb, rmb);
      GesturePass();
    }

    /** One step of the gesture being drawn, keeping the firmware state valid. */
    method GesturePass()
      requires Valid()
      modifies this`gestureMode, this`deltaX, this`deltaY
      ensures Valid()
      ensures Gestured(old(CalibrationState()), old(deltaX), old(deltaY))
    {
      ghost var mode := gestureMode;
      DrawGesture();
      GestureModes(mode);
    }

    /**
     * One pass of `loop`: the motion read, the buttons, and the drain of the
     * pending deltas `dx`, `dy` (returned). The lines go through exactly the
     * quadrature path of those deltas and the deltas end at zero.
     */
    method Loop(lmb: bool, rmb: bool) returns (dx: int, dy: int)
      requires Valid()
      modifies this`calibrationMode, this`waitForRelease, this`enteringCompleted, this`resolution, this`gestureMode
      modifies this`deltaX, this`deltaY, this`effects, this`eeprom, this`lmbOut, this`rmbOut
      modifies this`horPhase, this`verPhase, this`lines, this`pulses
      ensures Valid()
      ensures InRange(dx) && InRange(dy)
      ensures deltaX == 0 && deltaY == 0
      ensures pulses == old(pulses) + DrainPath(old(horPhase), old(verPhase), dx, dy)
      ensures horPhase == (old(horPhase) + dx) % 4 && verPhase == (old(verPhase) + dy) % 4
    {
      PollAndHandle(lmb, rmb);
      dx, dy := deltaX, deltaY;
      Drain();
    }

    /** The motion read and the buttons of one `loop` pass, which leave the phases and the lines alone. */
    method PollAndHandle(lmb: bool, rmb: bool)
      requires Valid()
      modifies this`calibrationMode, this`waitForRelease, this`enteringCompleted, this`resolution, this`gestureMode
      modifies this`deltaX, this`deltaY, this`effects, this`eeprom, this`lmbOut, this`rmbOut
      ensures Valid()
    {
      PollSensor();
      HandleMouseButtons(lmb, rmb);
    }
  }
}
