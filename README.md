# Amiga Laser Mouse ADNS-9800 — a Dafny model of the firmware core

The firmware runs on a PIC18 and sits between an ADNS-9800 laser motion
sensor and the mouse port of an Amiga. It talks to the sensor over a
bit-banged SPI bus and uploads the sensor's SROM firmware. It checks that the
sensor is healthy and restores the XY resolution stored in the EEPROM. In its
main loop it reads the motion deltas and turns them into quadrature pulses on
the H/HQ and V/VQ lines. Two buttons pass through to the Amiga. Holding both
at power-up enters a calibration mode, in which the buttons change the
resolution and the cursor draws "Yes"/"No" gestures. A bit-banged UART prints
diagnostics.

The model follows the source file by file:

- `bits.dfy` (module `Bits`): bytes as `bv8`, and their bits in MSB-first
  order (SPI) and LSB-first order (UART), with round trips.
- `spi.dfy` (module `Spi`, spi.c): class `Bus` holds the NCS, SCLK and MOSI
  latches. It records every pin operation in `wire`, in order. MISO is an
  input stream `miso: nat -> bool`, read at a sample counter.
  `SPI_bitBangData` is a method with its `for` loop. It is proved against
  `Waveform` (the pin activity of one byte) and `FromMsbBits` (the byte
  assembled from the samples).
- `adns_regs.dfy` (module `AdnsRegs`, adns9800.h): the register map, the
  read and write address bytes, and the `motion_t` bitfield layout with its
  encode/decode round trips.
- `adns.dfy` (module `Adns`, adns9800.c and the two inline functions of
  adns9800.h): register read, register write and the firmware upload as
  methods on a `Bus`. Each is proved to append exactly a trace function
  (`ReadTrace`, `WriteTrace`, `UploadTrace`). Lemmas about the traces give
  the bytes on MOSI, the samples on MISO, the chip-select pattern, and that
  the sensor is clocked only while it is selected.
- `quadrature.dfy` (module `Quadrature`, mouse.c): the Gray-code table of
  `SetQuadraturePhases`. It also has the drain loop as a path of line levels,
  and the count the Amiga derives from that path.
- `int16.dfy` (module `Int16`, mouse.c): the `int16_t` arithmetic of the
  deltas. It covers the two's complement reading of two register bytes and
  the wrap-around of the gesture and calibration adjustments.
- `mouse.dfy` (module `Mouse`, mouse.c): class `Firmware`. Its fields are the
  globals, the static locals of `handleMouseButtons` and `loop`, the button
  outputs, the quadrature lines, the EEPROM cell and a log of sensor and
  EEPROM operations. `setup`, `ADNS_init`, `ADNS_set_resolution`,
  `handleMouseButtons`, `SetQuadraturePhases` and `loop` are methods. The
  sensor's answers are a parameter, `script`: the read at log position `k`
  returns `Answer(k)`. Their decisions are stated against pure functions
  (`RestoredResolution`, `HealthEffects`, `CalibrationStep`, `GestureStep`,
  `DrainPath`). Lemmas about those functions state the promised properties.
- `uart.dfy` (module `Uart`, uart.c): class `Line` records the levels
  written to the TX pin. `UART_putc`, `UART_puts` and `UART_putb` are proved
  against `Frame`, `Frames` and `Hex`, which are decoded back by `Received`,
  `Decode` and `DigitValue`.

## How the code differs from its comments

The model follows the code in each case:

- mouse.c:474-476 says both coordinates "need to be reversed". The drain loop
  at mouse.c:481-500 steps the phase forward for a positive delta and
  negates nothing. `Quadrature.DrainCounts` states that the Amiga counts
  exactly `dx` and `dy`, with their signs as read.
- One iteration of the drain loop steps both axes and calls
  `SetQuadraturePhases` once. A diagonal delta therefore takes max(|dx|, |dy|)
  calls, not |dx| + |dy|. `Quadrature.DrainLength` proves this, and
  `Quadrature.DiagonalExample` shows (3, -2) drained in three calls.
- adns9800.c:93 waits `delay_us(200)` after the burst, while its comment
  speaks of 160 ms. The model records the 200 µs wait (`Wait(200)` in
  `BurstTrace`).

## Model

| member | source | states |
|---|---|---|
| Bits.MsbRoundTrip | spi.c:51-56 | shifting the MSB-first bits of a byte into a register rebuilds the byte |
| Bits.SamplesRoundTrip | spi.c:55-56 | eight samples shifted in MSB first are exactly the MSB-first bits of the result |
| Bits.MsbSampleBit | spi.c:55-56 | the j-th of k levels shifted in lands at bit k-1-j: the first sample ends up highest |
| Bits.LsbLevelAt | uart.c:54-57 | bit k of the byte rebuilt LSB first is level k |
| Bits.LsbRoundTrip | uart.c:54-58 | reading a byte's eight LSB-first levels rebuilds the byte |
| Spi.Window | spi.c:56 | the eight MISO samples from sample k on are the line's levels k..k+7 |
| Spi.Waveform | spi.c:46-60 | one byte transfer is 32 pin operations: eight cycles of four |
| Spi.Bus.SetSclk | spi.c:48 | SCLK takes the level, one operation is recorded, nothing else changes |
| Spi.Bus.SetMosi | spi.c:51 | MOSI takes the level, one operation is recorded, nothing else changes |
| Spi.Bus.SetNcs | adns9800.h:107-116 | NCS takes the level, one operation is recorded, nothing else changes |
| Spi.Bus.SampleMiso | spi.c:56 | returns the next MISO sample of the stream and advances the sample counter by one |
| Spi.Bus.Delay | adns9800.c:53 | a busy wait records a wait and changes no pin |
| Spi.Bus.ClockBit | spi.c:48-58 | one iteration: clock low, the top bit onto MOSI, both registers shift left, the sample enters bit 0, clock high |
| Spi.Bus.BitBangData | spi.c:42-62 | returns the eight samples assembled MSB first, consumes eight samples, appends the byte's waveform, and ends with SCLK high and MOSI at bit 0 |
| Spi.Bus.Transfer | spi.c:66-73 | returns exactly what the bit-bang returns and adds no bus activity of its own |
| Spi.Bus.Init | spi.c:77-84 | NCS ends HIGH (sensor deselected); SCLK, MOSI and the samples are untouched |
| Spi.ShiftedLeftBit | spi.c:51-52 | after i left shifts, bit k of the byte sent sits at bit k+i |
| Spi.NextIteration | spi.c:48-58 | one loop iteration moves the byte, the shift register and the trace from prefix i to prefix i+1 |
| Spi.ReceivedPrefix | spi.c:44-56 | after i iterations the register holds the first i samples, MSB first |
| Spi.ReceivedIsWindow | spi.c:44-61 | after eight iterations the register holds the eight samples, the first one highest |
| Spi.ClockedPrefix | spi.c:46-60 | the first i iterations drive the cycles of the first i bits and samples |
| Spi.ClockedIsWaveform | spi.c:46-60 | the eight iterations produce the byte's waveform |
| Spi.CycleLevels | spi.c:48-58 | one cycle drives MOSI once, samples MISO once, makes one low-high clock period and leaves NCS alone |
| Spi.WaveformShape | spi.c:46-60 | in cycle i the clock goes low, MOSI carries bit 7-i, MISO is sampled, then the clock goes high; the transfer ends with SCLK high |
| Spi.WaveformLevels | spi.c:46-60 | MOSI carries bits 7..0 in order, MISO is sampled eight times, SCLK makes exactly eight low-high periods, NCS is untouched |
| Spi.WaveformLevelsOn | spi.c:46-60 | the levels of a transfer on each pin are those of its eight cycles |
| Spi.ReceivedMsbFirst | spi.c:55-56 | the received byte has sample i at bit 7-i, i.e. the value sum of miso[i]·2^(7-i) |
| Spi.Loopback | spi.c:51-56 | when the MISO samples equal the MOSI bits driven, the byte received is the byte sent |
| Spi.WaveformPrefixNoNcs | spi.c:46-60 | no prefix of a transfer touches NCS |
| Spi.WaveformSelected | spi.c:46-60 | a transfer leaves NCS as it was and clocks the sensor only while selected exactly when NCS starts LOW |
| AdnsRegs.AddressBytes | adns9800.c:45-67 | for an address below 0x80 the read byte is the address with bit 7 clear, and the write byte has bit 7 set and every address bit kept |
| AdnsRegs.WriteFlagKeepsBit | adns9800.c:67 | OR-ing the write flag changes none of bits 0..6 |
| AdnsRegs.RegistersBelowWriteFlag | adns9800.h:49-93 | every declared register address is below 0x80 |
| AdnsRegs.RegisterAddressBytes | adns9800.h:49-93 | so for every declared register the read byte is the address and the write byte keeps it |
| AdnsRegs.DecodeMotion | adns9800.h:96-104 | bit 0 FRAME_PIX_FIRST, bits 1-2 OP_MODE (Run, Rest1, Rest2, Rest3), bit 5 LP_VALID, bit 6 FAULT, bit 7 MOT |
| AdnsRegs.EncodeDecodeMotion | adns9800.h:96-104 | every register byte is the encoding of the fields read from it |
| AdnsRegs.EncodeMotionBits | adns9800.h:96-104 | each field of the record lands in its own bits of the byte |
| AdnsRegs.DecodeEncodeMotion | adns9800.h:96-104 | decoding an encoded record gives every field back |
| Adns.ComBegin | adns9800.h:107-110 | NCS goes LOW and nothing else changes |
| Adns.ComEnd | adns9800.h:113-116 | NCS goes HIGH and nothing else changes |
| Adns.ReadReg | adns9800.c:48-60 | appends the read trace (select, address transfer, 100 µs, dummy transfer, deselect, 19 µs), returns the byte sampled in the second transfer, ends deselected |
| Adns.WriteReg | adns9800.c:63-72 | appends the write trace (select, address transfer, value transfer, 20 µs, deselect, 100 µs), ends deselected |
| Adns.UploadFirmware | adns9800.c:75-94 | appends the upload trace: three register writes with a 10 ms wait, then the burst; ends deselected |
| Adns.SendBurst | adns9800.c:84-93 | appends the burst trace: select, the SROM_Load_Burst write address, 15 µs, the image, 2 µs, deselect, 200 µs |
| Adns.SendAll | adns9800.c:87-90 | one transfer per image byte, in index order, and NCS is not touched |
| Adns.ReadTraceSelected | adns9800.c:50-56 | a read clocks the sensor only while selected and leaves it deselected |
| Adns.ReadTraceNcs | adns9800.c:50-56 | a read drives NCS LOW once and HIGH once |
| Adns.ReadTraceMosi | adns9800.c:52-54 | a read sends `addr & 0x7f` and then 0x00 on MOSI |
| Adns.ReadTraceMiso | adns9800.c:52-54 | the sixteen MISO samples of a read are the sensor's output in the two windows |
| Adns.ReadReturnsSensorByte | adns9800.c:54-59 | the byte returned is the one the sensor shifts out MSB first during the second transfer |
| Adns.WriteTraceSelected | adns9800.c:65-70 | a write clocks the sensor only while selected and leaves it deselected |
| Adns.WriteTraceNcs | adns9800.c:65-70 | a write drives NCS LOW once and HIGH once |
| Adns.WriteTraceMosi | adns9800.c:67-68 | a write sends `addr \| 0x80` and then the value on MOSI |
| Adns.TransfersNcs | adns9800.c:87-90 | the image loop never touches NCS |
| Adns.TransfersSelected | adns9800.c:87-90 | with the sensor selected, the image loop clocks it only while it stays selected |
| Adns.TransfersMosi | adns9800.c:87-90 | MOSI carries the image bytes in index order, each MSB first |
| Adns.TransfersMiso | adns9800.c:87-90 | MISO is sampled in one window of eight per byte |
| Adns.BurstTraceSelected | adns9800.c:84-93 | the burst clocks the sensor only while selected and leaves it deselected |
| Adns.BurstTraceNcs | adns9800.c:84-92 | NCS goes LOW once and HIGH once around the whole burst: no deselect inside the image |
| Adns.BurstTraceMosi | adns9800.c:85-90 | MOSI carries 0xE2 (SROM_Load_Burst with the write flag) and then the image |
| Adns.UploadTraceSelected | adns9800.c:75-94 | the whole upload clocks the sensor only while selected and ends deselected |
| Adns.UploadTraceNcs | adns9800.c:75-94 | NCS frames exactly four transactions: three writes and the burst |
| Adns.UploadTraceMosi | adns9800.c:78-90 | MOSI carries write(0x39, 0x02), write(0x13, 0x1d), write(0x13, 0x18), then 0xE2 and the image |
| Quadrature.GrayRoundTrip | mouse.c:97-105 | phases 0..3 and the four level pairs correspond one to one |
| Quadrature.GrayAdjacent | mouse.c:97-105 | neighbouring phases mod 4 differ on exactly one line, phases two apart on both |
| Quadrature.Toward | mouse.c:481-500 | one step moves a delta by at most one toward zero and lowers its magnitude by one unless it is zero |
| Quadrature.Advance | mouse.c:481-500 | a phase stays in 0..3 and moves by +1, +3 or 0 mod 4 by the sign of the delta, never by +2 |
| Quadrature.CountAdvance | mouse.c:481-501 | one phase step changes at most one line per channel and is counted as the sign of the delta |
| Quadrature.DrainLength | mouse.c:477-502 | the drain makes exactly max(\|dx\|, \|dy\|) calls of `SetQuadraturePhases` |
| Quadrature.DrainCounts | mouse.c:477-502 | over the whole drain the Amiga counts exactly dx horizontally and dy vertically |
| Quadrature.DrainSmooth | mouse.c:477-502 | no step of the drain changes both lines of a channel |
| Quadrature.DrainEnds | mouse.c:477-502 | after a non-empty drain each channel shows phase (start + delta) mod 4 |
| Quadrature.DrainLast | mouse.c:477-502 | the last lines of the drain show the end phases of the two axes |
| Quadrature.DrainEndMod | mouse.c:481-500 | draining moves a phase by the delta, mod 4 |
| Quadrature.AdvanceMod | mouse.c:481-500 | one step keeps phase + pending delta unchanged mod 4 |
| Quadrature.DiagonalExample | mouse.c:477-502 | (3, -2) is drained in three calls, the first two moving both axes |
| Int16.Wrap16 | mouse.c:391-418 | storing an integer into an `int16_t` gives the in-range value congruent mod 2^16, and leaves in-range values alone |
| Int16.WrapAdd | mouse.c:391-418 | wrapping after each adjustment or once at the end gives the same `int16_t` |
| Int16.TwosComplement | mouse.c:443-446 | the two's complement reading of a 16-bit value is in range and congruent mod 2^16 |
| Int16.SignedWord | mouse.c:443-446 | the word `lo \| (hi << 8)` read as `int16_t` is the delta of the two bytes |
| Int16.WordValue | mouse.c:443-446 | the word is hi·256 + lo |
| Int16.OrIsSum | mouse.c:444 | OR-ing the shifted high byte onto the low byte adds them |
| Int16.DeltaBytes | mouse.c:443-446 | the delta is in range, gives the two register bytes back, and is negative exactly when bit 7 of the high byte is set |
| Int16.TwosComplementBytes | mouse.c:443-446 | the two's complement of hi·256 + lo has high byte hi and low byte lo |
| Int16.BytesDelta | mouse.c:443-446 | every `int16_t` is the reading of its own high and low byte |
| Mouse.RestoredResolution | mouse.c:117-123 | the restored resolution is in [0x01, 0xA4]: the stored byte when it is in range, 0x44 otherwise |
| Mouse.ResolutionWrites | mouse.c:117-132 | the EEPROM is written exactly when the stored byte is out of range, and only with 0x44; Configuration_I always receives the restored resolution |
| Mouse.LaserEnabled | mouse.c:176-177 | the laser value written back keeps the upper nibble read and clears the lower one |
| Mouse.InverseReadOnlyForSupportedId | mouse.c:158-162 | the inverse product ID is read exactly when the product ID is 0x33 |
| Mouse.LaserOnlyWhenHealthy | mouse.c:158-180 | the laser is switched on exactly for a healthy sensor, with the upper nibble read, and the resolution is then restored |
| Mouse.EnableWrites | mouse.c:169-178 | LASER_CTRL0 is written exactly when the CRC is (0xEF, 0xBE), and then the resolution is restored |
| Mouse.InverseIsComplement | mouse.c:162 | the inverse check accepts exactly the bitwise complement of the product ID |
| Mouse.MotionReadyBits | mouse.c:437-441 | deltas are read exactly when bits 7..5 of Motion read 1, 0, 1 |
| Mouse.MotionFlagBits | mouse.c:439-441 | MOT, no FAULT and LP_VALID are bits 7, 6 and 5 of the register byte |
| Mouse.LowerAccumulates | mouse.c:325-338 | a right press adds its movement to what the left press of the same pass moved and keeps its decision to apply |
| Mouse.CalibrationKeepsRange | mouse.c:311-338 | calibration never takes the resolution out of [0x01, 0xA4] |
| Mouse.CalibrationGestures | mouse.c:302-373 | a calibration pass only ever starts gesture 1 ("No") or 5 ("Yes") |
| Mouse.CalibrationDebounced | mouse.c:307-348 | before the entry has completed, or while waiting for release, nothing is adjusted |
| Mouse.CalibrationReleaseRearms | mouse.c:351-355 | both buttons released completes the entry and re-arms, and never leaves the mode |
| Mouse.CalibrationExit | mouse.c:340-347 | the mode is left exactly when both buttons are pressed while waiting for release, and then the "Yes" gesture starts with the resolution unchanged |
| Mouse.CalibrationLeftPress | mouse.c:311-324 | a left press raises the resolution by one and adds 10 to the vertical delta, or at 0xA4 changes nothing and starts "No"; it arms the release wait |
| Mouse.CalibrationRightPress | mouse.c:325-338 | a right press lowers the resolution by one and subtracts 10, or at 0x01 changes nothing and starts "No"; it arms the release wait |
| Mouse.CalibrationOnePerPress | mouse.c:309-355 | after a press, no run of passes that keeps a button held changes the resolution |
| Mouse.GestureModes | mouse.c:389-424 | gesture modes 0..7 are closed under a step |
| Mouse.GestureTotals | mouse.c:389-424 | "No" runs 1→2→3→4→0 and brings the cursor back; "Yes" runs 5→6→7→0 and ends 200 counts right, 0 down |
| Mouse.GestureSettles | mouse.c:389-424 | every gesture reaches mode 0 within four passes |
| Mouse.IdleStays | mouse.c:389-424 | mode 0 and the undefined modes above 7 never move the cursor or change |
| Mouse.Firmware.constructor | mouse.c:76-79 | the globals and statics start at their initial values: sensor off, no calibration, no gesture, no movement, phases 0 |
| Mouse.Firmware.Setup | mouse.c:228-266 | releases both button outputs, enters calibration exactly when both buttons are held and the sensor came up; the log is the deselect of `SPI_init`, the operations and state `ADNS_init` promises, then the nine reads of `ADNS_dispRegisters` |
| Mouse.Firmware.InitAndDisplay | mouse.c:264-265 | `ADNS_init` followed by the register reads of `ADNS_dispRegisters`, made whether or not the sensor came up |
| Mouse.Firmware.DisplayRegisters | mouse.c:204-225 | reads Product_ID, Revision_ID, Motion, Observation, SROM_ID and Configuration I, II, IV, V, in that order, and nothing else |
| Mouse.Firmware.StartButtons | mouse.c:243-255 | both outputs released; calibration requested exactly when both inputs read LOW |
| Mouse.Firmware.ReadReg | adns9800.h:119 | a register read is logged and answered by the sensor's reply at that log position |
| Mouse.Firmware.WriteReg | adns9800.h:122 | a register write is logged |
| Mouse.Firmware.EeReadByte | mouse.c:117 | returns the calibration cell |
| Mouse.Firmware.EeWriteByte | mouse.c:124 | reports success exactly when the EEPROM is writable, and a failed write leaves the cell as it was |
| Mouse.Firmware.SetResolution | mouse.c:115-138 | the resolution becomes the restored one, the operations are those of `ResolutionEffects`, and a writable EEPROM holds the resolution afterwards |
| Mouse.Firmware.Init | mouse.c:141-201 | the sensor is enabled exactly when ID, inverse ID and CRC are right; only then is the resolution restored (in range); a disabled sensor turns calibration off |
| Mouse.Firmware.PowerUp | mouse.c:143-158 | select, deselect, power-up reset, 50 ms, the five discarded reads, the upload, the product ID read |
| Mouse.Firmware.HealthCheck | mouse.c:158-199 | the health chain after the product ID: enabled exactly when healthy, the operations of `HealthEffects`, the resolution restored only when healthy |
| Mouse.Firmware.CrcCheck | mouse.c:162-192 | the CRC test runs only after a matching inverse; enabled exactly when the CRC matches too |
| Mouse.Firmware.Enable | mouse.c:169-187 | on a matching CRC the sensor is enabled, the laser switched on and the resolution restored; otherwise nothing changes |
| Mouse.Firmware.SetQuadraturePhases | mouse.c:95-112 | each channel shows the Gray levels of its phase, a phase outside 0..3 leaves its lines alone, and the call is recorded |
| Mouse.Firmware.DrainStep | mouse.c:481-501 | each delta steps toward zero, each phase follows it, and the lines show the new phases |
| Mouse.Firmware.Drain | mouse.c:477-502 | the lines go through exactly `DrainPath` of the pending deltas, the deltas end at zero, and each phase ends at (start + delta) mod 4 |
| Mouse.Firmware.PollSensor | mouse.c:433-465 | with the sensor on, Motion is read; only with LP_VALID, no FAULT and MOT are the four delta registers read (low before high) and the deltas replaced; otherwise they stay |
| Mouse.Firmware.ReadDelta | mouse.c:443-446 | the low register is read first, and the result is the signed 16-bit value of high and low byte |
| Mouse.Firmware.CalibrationButtons | mouse.c:302-373 | the calibration state moves as `CalibrationStep` says, the vertical delta takes the step's movement as `int16_t`, and an applied resolution is written to the sensor and EEPROM and read back |
| Mouse.Firmware.AdjustResolution | mouse.c:309-339 | a left press then a right press, as `Adjusted` says; the release wait is armed by any press |
| Mouse.Firmware.RaiseResolution | mouse.c:311-324 | a left press as `Raise` says |
| Mouse.Firmware.LowerResolution | mouse.c:325-338 | a right press as `Lower` says |
| Mouse.Firmware.ApplyResolution | mouse.c:356-372 | Configuration_I and the EEPROM receive the same value, then 100 ms, then the read back |
| Mouse.Firmware.PassButtons | mouse.c:377-384 | each button output follows its input |
| Mouse.Firmware.DrawGesture | mouse.c:389-424 | one gesture step, its movement added to the deltas as `int16_t` |
| Mouse.Firmware.HandleMouseButtons | mouse.c:298-425 | outside calibration the outputs follow the inputs, only the gesture steps and no sensor or EEPROM operation happens; in calibration the outputs stay and the pass is a calibration step then a gesture step |
| Mouse.Firmware.CalibrationPass | mouse.c:302-424 | a calibration step, then a gesture step, keeping the firmware state valid |
| Mouse.Firmware.ButtonsPass | mouse.c:302-373 | the calibration step keeps the firmware state valid |
| Mouse.Firmware.NormalPass | mouse.c:374-424 | the passthrough, then a gesture step |
| Mouse.Firmware.GesturePass | mouse.c:389-424 | a gesture step keeps the firmware state valid |
| Mouse.Firmware.Loop | mouse.c:428-503 | the deltas left after the poll and the buttons are drained: in `int16_t` range, the lines go through exactly their `DrainPath`, they end at zero and each phase ends at (start + delta) mod 4 |
| Mouse.Firmware.PollAndHandle | mouse.c:433-472 | the poll and the buttons keep the firmware state valid |
| Uart.FrameRoundTrip | uart.c:51-62 | a frame is ten levels, starts LOW, ends HIGH (idle), carries the bits LSB first and is read back as the character |
| Uart.ReceivedRoundTrip | uart.c:51-62 | every well-formed ten-level frame is the frame of the character it is read as |
| Uart.LsbSamplesRoundTrip | uart.c:54-58 | eight levels read LSB first give a byte whose LSB-first bits are those levels |
| Uart.Frames | uart.c:69-76 | n characters take 10·n levels |
| Uart.FramesRoundTrip | uart.c:69-76 | a receiver reads back exactly the characters sent, in order |
| Uart.ShiftedRightBit | uart.c:56-57 | after i right shifts, bit i+k of the character sits at bit k |
| Uart.LowBit | uart.c:56 | `c & 0x01` is bit 0 |
| Uart.Hex | uart.c:81-83 | two characters, both from "0123456789ABCDEF" |
| Uart.Nibbles | uart.c:82-83 | both table indices are below 16 and split the byte as high·16 + low |
| Uart.HexTableDigits | uart.c:81 | table entry n is a hexadecimal digit of value n |
| Uart.DigitsAreTable | uart.c:81 | every uppercase hexadecimal digit is in the table at its value |
| Uart.HexRoundTrip | uart.c:81-83 | 16·digit(first) + digit(second) is the byte |
| Uart.UntilNul | uart.c:69-76 | the characters sent are a prefix of the string with no NUL, followed in the string by a NUL |
| Uart.Line.Putc | uart.c:47-64 | appends exactly the frame of the character and leaves the line HIGH |
| Uart.Line.Puts | uart.c:69-76 | appends the frames of exactly the characters before the first NUL, in order, and nothing else |
| Uart.Line.Putb | uart.c:79-84 | appends the frames of the two hexadecimal digits, high nibble first, and leaves the line HIGH |

## Left out

- Busy-wait timing (`delay_us`, `DELAY_MS`, `delay10tcy`, `Nop`) is cycle counting at 16 MHz. The SPI and sensor traces record it as abstract `Wait(µs)` events, and the mouse log as `DelayMs` events. The UART and quadrature timing is dropped.
- Mouse.Firmware.SetQuadraturePhases: the pulse length chosen by the gesture mode (mouse.c:108-111) is timing and is not modelled.
- Pin directions, the oscillator and analog setup in `setup` and `SPI_init` (mouse.c:230-245, 258-261, spi.c:79-82) are not modelled. Pins are boolean fields. The NCS HIGH of `SPI_init` (spi.c:83) is modelled: by `Spi.Bus.Init` on the bus, and as a `Deselect` in the mouse log of `Setup`.
- The welcome, calibration, error and diagnostic messages sent over the UART from mouse.c are not part of the mouse log. This includes the register names and values that `ADNS_dispRegisters` prints (mouse.c:204-225). Its nine sensor reads are modelled (`DisplayRegisters`), but the text is not. The UART encoders themselves are modelled in `Uart`.
- `playDemo` and `DEMO_MODE` (mouse.c:277-295, 466-471) are left out. They sit behind a compile-time flag and a demo pin, and form a timing-paced animation.
- `main` (mouse.c:506-513) is `setup` followed by `loop` forever. The model has the two methods but no non-terminating driver.
- The sensor's behaviour is left out: register latching, the CRC computation and motion generation. Its answers are the parameter `script`, and a read past the end of the script answers 0. The MISO line is the parameter `miso`.
- The EEPROM is one cell plus a flag saying whether writes succeed. eeprom.h is not part of this model.
- The firmware image (adns9800_srom_A6.h) is not part of this model. It is the parameter `image`, of length 3070.
- spi.h and amiga_mouse_config.h hold declarations and pin macros only. amiga_mouse.analysis.c is an analysis dump of an older version and is not part of this model.
- The button inputs are sampled once per pass (`lmb`, `rmb`). The source re-reads the port at each test, so a level that changes within one pass is not modelled.
- The phase update `(phase + 1) & 0x03` is written as `% 4` on phases in 0..3, which gives the same values.
- Mouse.Firmware.Loop: its contract states the drain of the deltas left after the poll and the buttons. The exact composition with `PollSensor` and `HandleMouseButtons`, each proved on its own, is not restated in `Loop`'s contract.
- Mouse.Firmware.PollAndHandle: its contract states only that the state stays valid. What the poll and the buttons do is stated by `PollSensor` and `HandleMouseButtons`.
- Uart.Line.Puts requires the string to contain a NUL, as every C string passed to `UART_puts` does.
