# MSP430 colour-sensing demo: a verified model of its core

This project models the deterministic core of an MSP430FR4133 demo board
program in Dafny. The program has five parts:

- **Colour sampler and classifier.** It counts the edges a light-to-frequency
  sensor produces under three LED illumination patterns and calibrates each
  count into an intensity saturated at 255. It then classifies the three
  intensities as Red, Blue, White or Unknown. The P1.3 edge interrupt and the
  10 ms timer interrupt are modelled as atomic step functions. Each busy-wait is
  an arbitrary sequence of events (edge or tick).
- **RGB indicator renderer.** Red is a hardware compare channel. Green and blue
  are software channels driven by the CCR2 interrupt: a phase counter runs
  modulo 256, and each pin is on exactly when the new phase is below its duty
  target. `setRGBDutyCycle` and `setColour` store the targets.
- **Gas-spectrum player.** It looks a name up in a static table (exact match,
  first match wins) and hands the entry's colours to `setColour` in order.
- **LCD 4-bit serialiser.** Each byte goes out as two nibbles on four data lines
  spread over three ports, with RS selecting command or data. The model records
  the latches the controller sees. It proves that they decode back to exactly
  the bytes sent, and that no other port bit is touched.
- **Light-intensity percentage.** A clamped linear integer map of an ADC value
  into [0, 100].

Machine widths are explicit:

- `unsigned int` is 16 bits (`uint16`) and `unsigned char` is 8 bits (`uint8`).
- Port registers are `bv8`.
- Every increment that can overflow wraps explicitly (`Registers.Inc16`, `Registers.Inc8`).

The float calibration coefficients 4.7059, 4.9412 and 5.3333 are modelled as
the exact rational values of the nearest single-precision floats:

| channel | exact value |
|---|---|
| red | 2467247/2^19 |
| green | 10362447/2^21 |
| blue | 11184741/2^21 |

`Calibrate` is the truncated quotient of the count by that rational, saturated
at 255.

Files, one module each:

| file | module | contents |
|---|---|---|
| `registers.dfy` | `Registers` | register bits, machine integers and their wrap-around |
| `arith.dfy` | `Arith` | multiplication and floor-division facts |
| `wrappers.dfy` | `Wrappers` | `Option` |
| `colour_sensor.dfy` | `ColourSensor` | sampler, handlers, calibration, classifier |
| `pwm.dfy` | `Pwm` | renderer set-up, duty store, CCR2 tick and its cycle counting |
| `colours.dfy` | `Colours` | palette and `setColour` |
| `gas_spectra.dfy` | `GasSpectra` | table, lookup and playback |
| `lcd.dfy` | `Lcd` | nibble/byte/text serialiser and its decoder |
| `light_intensity.dfy` | `LightIntensity` | the percentage map |

## Model

| member | source | states |
|---|---|---|
| Registers.Inc16 | colourSensor.c:125 | `pulses_num++` on a 16-bit unsigned int: one more, or 0 after 0xFFFF |
| Registers.Inc8 | colourSensor.c:148 | `timer_10ms_cnt++` on an 8-bit unsigned char: one more, or 0 after 0xFF |
| Registers.Drive | main.c:215-220 | setting or clearing one pin, as the CCR2 handler does for P1.5 and P1.6: the pin reads back at the requested level and no other bit changes |
| ColourSensor.Calibrate | colourSensor.c:67-68 | the intensity is at most 255. It is the largest value whose multiple of the coefficient does not exceed the count (the floor of count/coefficient); only at 255 may the count go further |
| ColourSensor.CalibrateMonotone | colourSensor.c:67-68 | more edges never calibrate to a smaller intensity |
| ColourSensor.CalibrateExamples | colourSensor.c:67-68 | with the red coefficient, 235 edges give 49 and 1200 edges give 254. Saturation at 255 starts at 1201 edges |
| ColourSensor.IdentifyColour | colourSensor.c:96-104 | Red iff red > 100 and green, blue < 100. Blue iff blue > 100 and red, green < 100. White iff all three > 100. The labels are exclusive by construction |
| ColourSensor.LabelName | colourSensor.c:98-104 | the returned string is "Unknown" exactly for a failed classification |
| ColourSensor.ThresholdTieIsUnknown | colourSensor.c:96-104 | any channel exactly at the threshold 100 yields Unknown |
| ColourSensor.ClassifierExamples | colourSensor.c:96-104 | one concrete triple for each of the four answers |
| ColourSensor.IsDetectedColorValid | main.c:73-78 | true exactly for the strings `Identify_Colour` returns for a classified colour (Red, Blue or White) |
| ColourSensor.DetectedColorValidIffClassified | main.c:73-78 | the label string is "White", "Red" or "Blue" exactly when the classifier did not answer Unknown |
| ColourSensor.Port1Isr | colourSensor.c:122-127 | P1IFG.3 is cleared and no other flag changes. The count is incremented, with 16-bit wrap-around, iff the flag was raised and detection is on; otherwise it is unchanged. Nothing else changes |
| ColourSensor.TimerA0Isr | colourSensor.c:147-154 | flag clear: no change. Counter below 99: it just increments. Counter 99 to 254: detection stops, the counter resets and P1IE.3 is cleared with the other enable bits kept. Counter 255 wraps to 0 and detection goes on. A counter below 100 stays below 100 |
| ColourSensor.Deliver | colourSensor.c:122-154 | an edge with P1IE.3 set is serviced at once: the flag ends clear and the edge is counted iff detection is on. With P1IE.3 clear the flag stays pending and nothing is counted. An edge changes only P1IFG.3 and the count. A tick changes neither the count nor P1IFG |
| ColourSensor.RunWindow | colourSensor.c:116-154 | neither handler, in any order of events, touches the LED port or the calibrated values |
| ColourSensor.EnableSenseIrq | colourSensor.c:62 | P1IE.3 ends set and P1IFG.3 clear, other bits kept. A pending edge is counted at that moment iff detection is on. Nothing else changes |
| ColourSensor.Settled | colourSensor.c:53-54 | after the settling wait both LEDs are off and the other P8 bits are kept |
| ColourSensor.DisarmedWindowCountsNothing | colourSensor.c:122-154 | once detection is off or P1IE.3 is clear, no event sequence changes the pulse count |
| ColourSensor.WindowCountBounded | colourSensor.c:122-127 | a wait never counts more pulses than the edges delivered during it |
| ColourSensor.EdgelessWindowKeepsFlags | colourSensor.c:116-154 | a wait with no edges leaves P1IFG unchanged |
| ColourSensor.ArmedWindowCountsEveryEdge | colourSensor.c:122-127 | while armed and with no timer tick, every edge is counted modulo 2^16, and counting stays armed with no flag pending |
| ColourSensor.ColourDetect | colourSensor.c:50-89 | all three intensities are at most 255. The LEDs are both on for red, only P8.3 on for green and only P8.2 on for blue. At the end both LEDs are off, the other P8 bits are kept and P1IE.3 is cleared |
| ColourSensor.ChannelsCountOwnWindow | colourSensor.c:53-84 | when the timer does not fire during the measurement waits, green and blue are the calibration of exactly their own window's edges, because the count is reset between phases. Red is the calibration of its window's edges plus one if P1IFG.3 was pending after the settling wait, all modulo 2^16 |
| ColourSensor.QuietSettleLeavesNothingPending | colourSensor.c:53-62 | a settling wait without edges, starting with no flag pending, leaves none pending |
| ColourSensor.ArmedSettleLeavesNothingPending | colourSensor.c:122-127 | with P1IE.3 set and no flag pending, a wait in which detection is off or the timer does not fire leaves no flag pending, P1IE.3 set and the detection flag unchanged |
| ColourSensor.InitialiseColourSensor | colourSensor.c:29-44 | both LEDs off, P1IE.3 set and P1IFG.3 clear, other bits kept. Setting P1IE.3 services a pending P1IFG.3 at once: the count is incremented, with 16-bit wrap-around, iff the flag was pending and detection is still on. Nothing else in the sampler state changes |
| ColourSensor.InitialisedRedCountsOwnWindow | main.c:157-163 | after `initialiseColourSensor`, with detection off or no timer tick until the red phase and none during it, red is the calibration of exactly its own window's edges |
| Pwm.StartupGlobals | pwm.c:19-20 | the green and blue duty globals and the phase counter start at 0; nothing else is set |
| Pwm.SetupTimerForSwPwm | pwm.c:23-26 | TA0CCTL2 = CCIE and TA0CCR2 = 5; nothing else changes |
| Pwm.SetupGpio | pwm.c:29-33 | P1.5 and P1.6 become outputs and are driven low; every other P1 bit is kept |
| Pwm.SetupPwm | pwm.c:36-55 | P1.7 becomes a low TA0.1 output. TA0CTL = TASSEL_2 + MC_1, TA0CCR0 = 100, TA0CCTL1 = OUTMOD_7 and TA0CCR1 = 0. No other bit or register changes |
| Pwm.SetRgbDutyCycle | pwm.c:58-65 | TA0CCR1, greenDutyCycle and blueDutyCycle take the three arguments unclamped; nothing else changes |
| Pwm.SetRgbDutyCycleIdempotent | pwm.c:58-65 | writing the same targets twice equals writing them once |
| Pwm.SetRgbDutyCycleLastWins | pwm.c:58-65 | of two consecutive writes only the second is visible |
| Pwm.SetRgbDutyCycleKeepsPeriod | pwm.c:36-65 | after `setupPWM` the period 100 survives every duty update |
| Pwm.TimerA1Isr | main.c:208-225 | a vector other than CCR2 changes nothing. On CCR2 the phase becomes (phase + 1) mod 256, within [0, 255]. Blue (P1.5) is on iff the new phase < blueDutyCycle, and green (P1.6) iff it is < greenDutyCycle. No other P1OUT bit and no other register changes |
| Pwm.OtherVectorsIgnored | main.c:209-224 | TA0IV values other than CCR2 (none pending, CCR1, overflow) change nothing |
| Pwm.OnTicksIsPhaseCount | main.c:211-220 | the number of ticks a channel is on equals the count of reached phases below its duty |
| Pwm.PhaseAfterIsMod | main.c:212 | stepping the counter k times from a valid phase adds k modulo 256 |
| Pwm.FullTurn | main.c:212 | 256 steps bring the counter back to the phase it started from |
| Pwm.PhaseCountSnoc | main.c:212 | counting n + 1 phases is counting n phases plus the last one |
| Pwm.PhaseCountRotate | main.c:212 | a full cycle of 256 phases counts the same from a phase as from the next |
| Pwm.PhaseCountAnyStart | main.c:212 | a full cycle counts the same from every starting phase |
| Pwm.PhaseCountFromZero | main.c:212 | before the counter wraps, phases 1..n are counted exactly when below the duty |
| Pwm.PhaseCountFullCycle | main.c:212 | one cycle from phase 0 counts min(d, 256) phases below d |
| Pwm.FullCycleDuty | main.c:211-220 | over any 256 consecutive ticks with fixed targets, a software channel is on exactly min(d, 256) times: never for d = 0, always for d >= 256 |
| Pwm.TicksKeepRedChannel | main.c:208-225 | any number of ticks leaves the red compare register, the period and the red pin alone, and keeps the phase below 256 |
| Colours.SetColour | colours.c:30-32 | the three duty targets become the colour's components and nothing else changes |
| Colours.SetColourIsSetRgbDutyCycle | colours.c:30-32 | `setColour(c)` is `setRGBDutyCycle(c.red, c.green, c.blue)` |
| Colours.SetColourOffDarkens | colours.c:26-32 | showing `off` zeroes all three targets, and the next tick turns both software pins off |
| Colours.PaletteFacts | colours.c:14-26 | nRed, nBlue, cyan and nGreen are the pure primaries. Every green component is at most 255. Every blue component is at most 255 except lilac's, which is 840 |
| GasSpectra.Emitted | GasSpectra.c:40-43 | the playback loop visits the first numColours listed colours, in order |
| GasSpectra.FirstMatchFrom | GasSpectra.c:37-38 | the first index from `from` on with exactly that name, or none when no later entry has it |
| GasSpectra.FirstMatch | GasSpectra.c:37-46 | the first index with exactly that name. There is none iff no entry has that name |
| GasSpectra.Spectrum | GasSpectra.c:35-47 | an unknown name plays nothing. Otherwise the entry at the first index with that name (no earlier index has it) is played: its first numColours colours |
| GasSpectra.DisplayGasSpectrum | GasSpectra.c:35-47 | the calls to `setColour` are exactly the first matching entry's colours. An unknown name makes no calls |
| GasSpectra.Play | GasSpectra.c:40-43 | the renderer state after the playback's `setColour` calls in order: no calls change nothing, and any calls change only the duty targets |
| GasSpectra.PlayEndsOnLast | GasSpectra.c:40-43 | after a non-empty playback the renderer shows the last colour, and only the duty targets changed |
| GasSpectra.TableWellFormed | GasSpectra.c:22-25 | every entry's numColours equals its listed colours and is at most 12, the array capacity |
| GasSpectra.ShippedSpectra | GasSpectra.c:22-25 | Hydrogen plays purple, nBlue, cyan, nRed. Helium plays 9 colours and Nitrogen 7. "Xenon" and "hydrogen" play nothing (case-sensitive) |
| GasSpectra.ShippedPlaybackEndsRed | GasSpectra.c:23-43 | any successful playback of the shipped table leaves the indicator showing nRed |
| Lcd.PresentNibble | lcd.c:74-76 | the four data pins read back as the nibble's low four bits; every other bit of P2OUT, P8OUT and P5OUT is kept |
| Lcd.Presented | lcd.c:67-78 | while E is high, RS is at the transfer kind's level and the data pins already read the nibble; only LCD lines changed |
| Lcd.SendNibble | lcd.c:67-81 | the controller latches RS (high iff data) and the nibble's four bits. The pins read the nibble back, E ends low, and only the six LCD lines changed |
| Lcd.Encode | lcd.c:86-89 | every transfer becomes exactly two latches |
| Lcd.Decode | lcd.c:86-89 | a latch sequence the controller accepts holds exactly two latches per transfer |
| Lcd.NibbleSplit | lcd.c:87-88 | both nibbles are below 16, and high nibble times 16 plus the low nibble gives back the byte |
| Lcd.DecodeEncode | lcd.c:86-89 | the controller decodes the latches of any transfer list back to exactly that list |
| Lcd.EncodeDecode | lcd.c:86-89 | every latch sequence the controller accepts is the encoding of what it decodes |
| Lcd.EncodeAppend | lcd.c:86-89 | the encoding of consecutive transfers is the concatenation of their encodings |
| Lcd.WriteByte | lcd.c:86-89 | one byte is two latches, high nibble first, with the caller's RS. RS is left high iff data, E is low, and only LCD lines changed |
| Lcd.SendCommand | lcd.c:94-96 | one command transfer of that byte, RS and E left low, only LCD lines changed |
| Lcd.CString | lcd.c:108-110 | the characters before the first NUL, none of them NUL |
| Lcd.WriteText | lcd.c:108-110 | the characters of the C string go out as data transfers, in order, and only LCD lines change |
| Lcd.WriteLine | lcd.c:107-110 | a cursor-home command, then the line's characters as data |
| Lcd.DisplayText | lcd.c:102-117 | the bus carries command 0x01, command 0x80, line 1 as data, command 0xC0, line 2 as data. That is 2 * (3 + len1 + len2) latches, and they decode to exactly those transfers. Only LCD lines change |
| Lcd.InitGpio | lcd.c:25-37 | the six LCD lines become outputs driven low; no other direction or output bit changes |
| Lcd.WakeUp | lcd.c:48-54 | the command nibbles 3, 3, 3, 2 as single latches, only LCD lines changed |
| Lcd.Configure | lcd.c:57-60 | the command bytes 0x28, 0x0C, 0x06, 0x01 in order; RS and E left low; only LCD lines changed |
| Lcd.Init | lcd.c:42-62 | twelve latches: the wake-up nibbles 3, 3, 3, 2, then latches decoding to exactly the four configuration commands. All six LCD lines are outputs, RS and E end low, and no direction or output bit outside the six lines changes |
| Lcd.LcdSparesSharedPins | lcd.c:74-76 | driving the LCD never disturbs the colour-sensor LEDs (P8.2, P8.3) or the RGB pins (P1.5 to P1.7) |
| LightIntensity.AdcValueToPercentage | lightIntensity.c:65-74 | the result is in [0, 100]. Below the minimum it is 0 and above the maximum 100. In between it is the floor of offset * 100 / span. Only the one input that divides by zero is excluded |
| LightIntensity.PercentageMonotone | lightIntensity.c:65-74 | with min < max, a larger reading never gives a smaller percentage |
| LightIntensity.PercentageEndpoints | lightIntensity.c:72 | with min < max, the minimum reads 0 % and the maximum 100 % |

## Left out

- Button set-up and polling, the main loop, the debounce waits and `sprintf` formatting (main.c). These are I/O plumbing around the core.
- ADC register set-up, `startADC`, `blockingReadADC`, `ADC_ISR` and `isLightIntensityBelowThreshold` (lightIntensity.c, main.c). They are hardware access and busy-waits.
- `initialiseColourSensor`: the P8.2/P8.3 and P1.3 direction writes, the P1.3 pull-up (P1REN, P1OUT) and the rising-edge select (P1IES) are not modelled, nor is setting GIE. Its LED-off, P1IE.3 and P1IFG.3 writes are, together with the `Port_1` run that enabling P1IE.3 triggers on a pending flag (`ColourSensor.InitialiseColourSensor`).
- `pulses_num`, `timer_10ms_cnt` and `colour_det_flag` are not declared `volatile` (colourSensor.c:16-18), so a compiler may keep them in registers across the busy-waits. For example, it may fold the read of `pulses_num` after the waits into the 0 just stored. The model assumes every read in `Colour_Detect` sees the handlers' latest writes.
- `__delay_cycles` and `delay_ms`. Delays are not modelled. A busy-wait is an arbitrary sequence of interrupt events, so no rate of edges or ticks is assumed, and the timer may never fire (no code shown enables its CCR0 interrupt).
- The electrical meaning of OUTMOD_7 and the red hardware waveform. Only the register values are modelled.
- The CCR2 tick rate; the watchdog write at the head of `setupPWM`.
- Interleavings finer than one handler run. Each handler is one atomic step. The main code's non-atomic read-modify-write of shared port registers is not modelled.
- Pwm.SetRgbDutyCycle: its three stores (pwm.c:60, 63, 64) are one atomic step in the model. A CCR2 tick that runs between the green store (pwm.c:63) and the blue store (pwm.c:64) is not modelled; for that one tick the renderer shows the new green target with the old blue one.
- Colours.SetColour: goes through `setRGBDutyCycle`, so the same torn update between its green and blue stores is not modelled; GasSpectra.Play inherits it for every colour it sets.
- `__even_in_range` is modelled as a plain comparison of the vector value.
- ColourSensor.Calibrate: float division and truncation are modelled as exact rational division with the float constants' exact values, not as single-precision rounding.
- ColourSensor.ColourDetect: the exact value of each intensity is stated, through ChannelsCountOwnWindow, only for measurement waits in which the timer does not fire. With arbitrary ticks only the bounds are stated.
- Pwm.FullCycleDuty: counts ticks with the duty targets fixed for the whole cycle. An update in mid-cycle is not covered.
- Lcd.SendCommand: it is a method, like Lcd.WriteByte, so the equality with `lcdWriteByte(c, 1)` is stated as identical bus and pin effects rather than as equality of results.

## Behaviour worth noting

- Duty targets are stored as given: `setRGBDutyCycle` neither clamps nor checks them (pwm.c:58-65, `Pwm.SetRgbDutyCycle`).
- The CCR2 interrupt (enabled at pwm.c:24, with GIE on from main.c:108) is not masked while `setRGBDutyCycle` stores the green and blue targets (pwm.c:63-64). A tick in between renders the new green target with the old blue one.
- The pulse count is read while edge counting is still enabled. P1IE.3 is set once before the red phase (colourSensor.c:62) and cleared only after the blue phase (colourSensor.c:88); there is no per-phase arm or disarm.
- Calibration truncates the quotient by the float coefficient. With the red coefficient 1200 edges give 254, and saturation at 255 starts at 1201 edges (`ColourSensor.CalibrateExamples`).
- An edge that arrives while P1IE.3 is disabled leaves P1IFG.3 pending, and the handler runs as soon as the enable is set again. If `Colour_Detect` is called with P1IE.3 clear, an edge left pending from the settling wait is therefore serviced at colourSensor.c:62, after the reset, and counted towards red (`ColourSensor.ChannelsCountOwnWindow`). On the program's button path (main.c:158-163) `initialiseColourSensor` sets P1IE.3 first (colourSensor.c:38). An old pending edge is serviced there, settling-wait edges are serviced as they arrive, and the reset at colourSensor.c:58 discards both, so nothing reaches red (`ColourSensor.InitialisedRedCountsOwnWindow`).
