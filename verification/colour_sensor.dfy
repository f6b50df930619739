/**
 The colour sensor: a three-phase measurement that lights the two illumination
 LEDs (P8.2, P8.3) in a fixed pattern, counts rising edges of the sensor output
 (P1.3) during each window, calibrates each count to an 8-bit intensity, and a
 threshold classifier over the three intensities.

 The two interrupt handlers are atomic steps over the shared state. What happens
 while `Colour_Detect` busy-waits is given as a list of events per wait: a
 sensor edge, or a tick of the 10 ms timer. Nothing forces either to occur; in
 particular the timer interrupt is never assumed to fire.
 */
module ColourSensor {
  import opened Registers
  import opened Arith

  /** The sensor output on P1.3 and the illumination LEDs on P8.2 and P8.3. */
  const SENSE_PIN: bv8 := BIT3
  const LED_A: bv8 := BIT2
  const LED_B: bv8 := BIT3
  const LEDS: bv8 := BIT2 | BIT3

  /** A window closes when the 10 ms count passes 99. */
  const WINDOW_TICKS: nat := 100

  /** The classifier's threshold; a channel must be strictly above or below it. */
  const THRESHOLD: nat := 100

  /** Saturation value of a calibrated intensity. */
  const MAX_INTENSITY: nat := 255

  /** Shared state of the sampler, its two interrupt handlers and port registers. */
  datatype Sensor = Sensor(
    pulsesNum: uint16,
    timer10msCnt: uint8,
    colourDetFlag: uint8,
    p1ie: bv8,
    p1ifg: bv8,
    p8out: bv8,
    redVal: uint16,
    greenVal: uint16,
    blueVal: uint16)

  /**
   A calibration coefficient, the positive rational `num / den`. The device
   stores these as single-precision `float`s; each constant below is the exact
   value of the float nearest the decimal in the source (4.7059, 4.9412 and
   5.3333 respectively).
   */
  datatype Coeff = Coeff(num: nat, den: nat)

  predicate ValidCoeff(k: Coeff) {
    k.num > 0 && k.den > 0
  }

  const RED_COEFF: Coeff := Coeff(2467247, 524288)
  const GREEN_COEFF: Coeff := Coeff(10362447, 2097152)
  const BLUE_COEFF: Coeff := Coeff(11184741, 2097152)

  /**
   `val = pulses_num / coeff; if (val > 255) val = 255;`: the count divided by
   the coefficient, truncated, then saturated at 255.
   */
  function Calibrate(count: uint16, k: Coeff): (v: uint16)
    requires ValidCoeff(k)
    ensures v <= MAX_INTENSITY
    ensures v * k.num <= count * k.den
    ensures v < MAX_INTENSITY ==> count * k.den < (v + 1) * k.num
  {
    var x := count * k.den;
    FloorDiv(x, k.num);
    var q := x / k.num;
    if q > MAX_INTENSITY then
      MulMonotone(MAX_INTENSITY, q, k.num);
      MAX_INTENSITY
    else
      q
  }

  /** A larger count never calibrates to a smaller intensity. */
  lemma CalibrateMonotone(c1: uint16, c2: uint16, k: Coeff)
    requires ValidCoeff(k) && c1 <= c2
    ensures Calibrate(c1, k) <= Calibrate(c2, k)
  {
    var v1 := Calibrate(c1, k);
    var v2 := Calibrate(c2, k);
    MulMonotone(c1, c2, k.den);
    if v1 > v2 {
      MulMonotone(v2 + 1, v1, k.num);
      assert false;
    }
  }

  /**
   235 red edges calibrate to 49. Saturation starts at 1201 edges: 1200 edges
   fall just short of 255 coefficients' worth and calibrate to 254.
   */
  lemma CalibrateExamples()
    ensures Calibrate(235, RED_COEFF) == 49
    ensures Calibrate(1200, RED_COEFF) == 254
    ensures Calibrate(1201, RED_COEFF) == 255
  {
    assert 235 * 524288 / 2467247 == 49 by {
      assert 49 * 2467247 <= 235 * 524288 < 50 * 2467247;
    }
    assert 1200 * 524288 / 2467247 == 254 by {
      assert 254 * 2467247 <= 1200 * 524288 < 255 * 2467247;
    }
    assert 1201 * 524288 / 2467247 >= 255 by {
      assert 255 * 2467247 <= 1201 * 524288;
    }
  }

  /** The classifier's closed set of answers. */
  datatype Label = Red | Blue | White | Unknown

  /** `Identify_Colour` over the three calibrated intensities. */
  function IdentifyColour(red: int, green: int, blue: int): (l: Label)
    ensures l == Red <==> red > THRESHOLD && green < THRESHOLD && blue < THRESHOLD
    ensures l == Blue <==> blue > THRESHOLD && red < THRESHOLD && green < THRESHOLD
    ensures l == White <==> red > THRESHOLD && green > THRESHOLD && blue > THRESHOLD
  {
    if red > THRESHOLD && green < THRESHOLD && blue < THRESHOLD then Red
    else if blue > THRESHOLD && red < THRESHOLD && green < THRESHOLD then Blue
    else if red > THRESHOLD && green > THRESHOLD && blue > THRESHOLD then White
    else Unknown
  }

  /** The string `Identify_Colour` returns for each label; only a failed classification reads "Unknown". */
  function LabelName(l: Label): (name: string)
    ensures name == "Unknown" <==> l == Unknown
  {
    match l
    case Red => "Red"
    case Blue => "Blue"
    case White => "White"
    case Unknown => "Unknown"
  }

  /** A channel sitting exactly on the threshold is never classified. */
  lemma ThresholdTieIsUnknown(red: int, green: int, blue: int)
    requires red == THRESHOLD || green == THRESHOLD || blue == THRESHOLD
    ensures IdentifyColour(red, green, blue) == Unknown
  {
  }

  lemma ClassifierExamples()
    ensures IdentifyColour(150, 10, 10) == Red
    ensures IdentifyColour(10, 10, 150) == Blue
    ensures IdentifyColour(200, 200, 200) == White
    ensures IdentifyColour(100, 100, 100) == Unknown
  {
  }

  /**
   `isDetectedColorValid`: the label string is "White", "Red" or "Blue" —
   exactly the strings `Identify_Colour` returns for a classified colour.
   */
  predicate IsDetectedColorValid(detected: string): (valid: bool)
    ensures valid <==> exists l: Label :: l != Unknown && LabelName(l) == detected
  {
    assert LabelName(White) == "White" && LabelName(Red) == "Red" && LabelName(Blue) == "Blue";
    detected == "White" || detected == "Red" || detected == "Blue"
  }

  /** A detection is valid exactly when the classifier did not give up. */
  lemma DetectedColorValidIffClassified(red: int, green: int, blue: int)
    ensures IsDetectedColorValid(LabelName(IdentifyColour(red, green, blue)))
        <==> IdentifyColour(red, green, blue) != Unknown
  {
    var l := IdentifyColour(red, green, blue);
    if l == Unknown {
      assert LabelName(l)[0] == 'U';
    }
  }

  /**
   `Port_1`: an interrupt caused by P1.3 clears its flag and, while detection
   is on, counts one edge (with 16-bit wrap-around). Any other cause is ignored.
   */
  function Port1Isr(s: Sensor): (r: Sensor)
    ensures !IsSet(r.p1ifg, SENSE_PIN)
    ensures SameOutside(r.p1ifg, s.p1ifg, SENSE_PIN)
    ensures IsSet(s.p1ifg, SENSE_PIN) && s.colourDetFlag != 0 ==> r.pulsesNum == Inc16(s.pulsesNum)
    ensures !IsSet(s.p1ifg, SENSE_PIN) || s.colourDetFlag == 0 ==> r.pulsesNum == s.pulsesNum
    ensures r == s.(p1ifg := r.p1ifg, pulsesNum := r.pulsesNum)
  {
    if IsSet(s.p1ifg, SENSE_PIN) then
      var s1 := s.(p1ifg := Clear(s.p1ifg, SENSE_PIN));
      if s1.colourDetFlag != 0 then s1.(pulsesNum := Inc16(s1.pulsesNum)) else s1
    else
      s
  }

  /**
   `Timer_A` (TIMER0_A0): while detection is on, count a 10 ms tick in the
   8-bit counter; once it passes 99, stop detection, reset the counter and
   disable the P1.3 interrupt.
   */
  function TimerA0Isr(s: Sensor): (r: Sensor)
    ensures s.colourDetFlag == 0 ==> r == s
    ensures s.colourDetFlag != 0 && s.timer10msCnt < WINDOW_TICKS - 1 ==>
      r == s.(timer10msCnt := s.timer10msCnt + 1)
    ensures s.colourDetFlag != 0 && WINDOW_TICKS - 1 <= s.timer10msCnt < 0xFF ==>
      && r.colourDetFlag == 0 && r.timer10msCnt == 0
      && !IsSet(r.p1ie, SENSE_PIN) && SameOutside(r.p1ie, s.p1ie, SENSE_PIN)
      && r == s.(colourDetFlag := 0, timer10msCnt := 0, p1ie := r.p1ie)
    ensures s.colourDetFlag != 0 && s.timer10msCnt == 0xFF ==> r == s.(timer10msCnt := 0)
    ensures s.timer10msCnt < WINDOW_TICKS ==> r.timer10msCnt < WINDOW_TICKS
  {
    if s.colourDetFlag != 0 then
      var s1 := s.(timer10msCnt := Inc8(s.timer10msCnt));
      if s1.timer10msCnt > 99 then
        s1.(colourDetFlag := 0, timer10msCnt := 0, p1ie := Clear(s1.p1ie, SENSE_PIN))
      else
        s1
    else
      s
  }

  /** What may happen while the sampler busy-waits. */
  datatype Event = SenseEdge | Tick10ms

  /**
   A rising edge on P1.3 raises its interrupt flag; the handler runs at once
   when the P1.3 interrupt is enabled, otherwise the flag stays pending.
   A timer tick runs the timer handler.
   */
  function Deliver(s: Sensor, e: Event): (r: Sensor)
    ensures e == SenseEdge && IsSet(s.p1ie, SENSE_PIN) ==>
      && !IsSet(r.p1ifg, SENSE_PIN)
      && r.pulsesNum == (if s.colourDetFlag != 0 then Inc16(s.pulsesNum) else s.pulsesNum)
    ensures e == SenseEdge && !IsSet(s.p1ie, SENSE_PIN) ==>
      IsSet(r.p1ifg, SENSE_PIN) && r.pulsesNum == s.pulsesNum
    ensures e == SenseEdge ==> r == s.(p1ifg := r.p1ifg, pulsesNum := r.pulsesNum)
    ensures e == Tick10ms ==> r.pulsesNum == s.pulsesNum && r.p1ifg == s.p1ifg
    ensures SameOutside(r.p1ifg, s.p1ifg, SENSE_PIN)
  {
    match e
    case SenseEdge =>
      var s1 := s.(p1ifg := Set(s.p1ifg, SENSE_PIN));
      if IsSet(s1.p1ie, SENSE_PIN) then Port1Isr(s1) else s1
    case Tick10ms => TimerA0Isr(s)
  }

  /**
   The state after the events of one wait, in order. Neither handler touches
   the LEDs or the calibrated values.
   */
  function RunWindow(s: Sensor, events: seq<Event>): (r: Sensor)
    ensures r.p8out == s.p8out
    ensures r.redVal == s.redVal && r.greenVal == s.greenVal && r.blueVal == s.blueVal
    decreases |events|
  {
    if events == [] then s else RunWindow(Deliver(s, events[0]), events[1..])
  }

  /**
   `P1IE |= BIT3`; a flag left pending is serviced immediately, so an edge
   that arrived while the interrupt was disabled is counted (while detection
   is on) the moment it is enabled.
   */
  function EnableSenseIrq(s: Sensor): (r: Sensor)
    ensures IsSet(r.p1ie, SENSE_PIN) && SameOutside(r.p1ie, s.p1ie, SENSE_PIN)
    ensures !IsSet(r.p1ifg, SENSE_PIN) && SameOutside(r.p1ifg, s.p1ifg, SENSE_PIN)
    ensures IsSet(s.p1ifg, SENSE_PIN) && s.colourDetFlag != 0 ==> r.pulsesNum == Inc16(s.pulsesNum)
    ensures !IsSet(s.p1ifg, SENSE_PIN) || s.colourDetFlag == 0 ==> r.pulsesNum == s.pulsesNum
    ensures r == s.(p1ie := r.p1ie, p1ifg := r.p1ifg, pulsesNum := r.pulsesNum)
  {
    var s1 := s.(p1ie := Set(s.p1ie, SENSE_PIN));
    if IsSet(s1.p1ifg, SENSE_PIN) then Port1Isr(s1) else s1
  }

  /** How many edges a wait delivers. */
  function EdgeCount(events: seq<Event>): (n: nat)
    ensures n <= |events|
    decreases |events|
  {
    if events == [] then 0 else (if events[0] == SenseEdge then 1 else 0) + EdgeCount(events[1..])
  }

  /** The first 100 ms of `Colour_Detect`: both LEDs off, then the events of the settling wait. */
  function Settled(s: Sensor, settle: seq<Event>): (r: Sensor)
    ensures r.p8out & LEDS == 0 && SameOutside(r.p8out, s.p8out, LEDS)
  {
    RunWindow(s.(p8out := Clear(s.p8out, LEDS)), settle)
  }

  /** The result of `Colour_Detect`: the final state and P8OUT's LED bits during each window. */
  datatype Detection = Detection(sensor: Sensor, illumination: seq<bv8>)

  /**
   `Colour_Detect`. `settle` is what happens during the initial 100 ms with
   both LEDs off; `redWin`, `greenWin` and `blueWin` during the three
   measurement waits. The pulse count is reset before each phase and read
   while edge counting is still enabled; the P1.3 interrupt is disabled only at
   the very end.
   */
  function ColourDetect(s: Sensor, settle: seq<Event>, redWin: seq<Event>, greenWin: seq<Event>, blueWin: seq<Event>): (d: Detection)
    ensures d.sensor.redVal <= MAX_INTENSITY
    ensures d.sensor.greenVal <= MAX_INTENSITY
    ensures d.sensor.blueVal <= MAX_INTENSITY
    ensures |d.illumination| == 3
    ensures IsSet(d.illumination[0], LED_A) && IsSet(d.illumination[0], LED_B)
    ensures !IsSet(d.illumination[1], LED_A) && IsSet(d.illumination[1], LED_B)
    ensures IsSet(d.illumination[2], LED_A) && !IsSet(d.illumination[2], LED_B)
    ensures d.sensor.p8out & LEDS == 0 && SameOutside(d.sensor.p8out, s.p8out, LEDS)
    ensures !IsSet(d.sensor.p1ie, SENSE_PIN)
  {
    // both LEDs off, settle
    var s0 := Settled(s, settle);
    // reset values and count, start detection, enable edge interrupts
    var s1 := EnableSenseIrq(s0.(redVal := 0, greenVal := 0, blueVal := 0, pulsesNum := 0, colourDetFlag := 1));
    // red phase: both LEDs on
    var r0 := s1.(p8out := Set(s1.p8out, LEDS));
    var r1 := RunWindow(r0, redWin);
    var r2 := r1.(redVal := Calibrate(r1.pulsesNum, RED_COEFF));
    // green phase: only P8.3 on
    var g0 := r2.(pulsesNum := 0, p8out := Set(Clear(r2.p8out, LED_A), LED_B));
    var g1 := RunWindow(g0, greenWin);
    var g2 := g1.(greenVal := Calibrate(g1.pulsesNum, GREEN_COEFF));
    // blue phase: only P8.2 on
    var b0 := g2.(pulsesNum := 0, p8out := Set(Clear(g2.p8out, LED_B), LED_A));
    var b1 := RunWindow(b0, blueWin);
    var b2 := b1.(blueVal := Calibrate(b1.pulsesNum, BLUE_COEFF));
    // clean up: LEDs off, edge interrupts off
    var done := b2.(p8out := Clear(b2.p8out, LEDS), p1ie := Clear(b2.p1ie, SENSE_PIN));
    Detection(done, [r0.p8out & LEDS, g0.p8out & LEDS, b0.p8out & LEDS])
  }


  predicate NoTicks(events: seq<Event>) {
    forall i :: 0 <= i < |events| ==> events[i] == SenseEdge
  }

  /**
   Once detection is off or the P1.3 interrupt is disabled, no event of a wait
   changes the pulse count: an edge arriving after the timer has closed the
   window is never counted.
   */
  lemma {:induction false} DisarmedWindowCountsNothing(s: Sensor, events: seq<Event>)
    requires s.colourDetFlag == 0 || !IsSet(s.p1ie, SENSE_PIN)
    ensures RunWindow(s, events).pulsesNum == s.pulsesNum
    decreases |events|
  {
    if events != [] {
      var t := Deliver(s, events[0]);
      assert t.pulsesNum == s.pulsesNum;
      assert t.colourDetFlag == 0 || !IsSet(t.p1ie, SENSE_PIN);
      DisarmedWindowCountsNothing(t, events[1..]);
    }
  }

  /** A wait never counts more pulses than the edges delivered during it. */
  lemma {:induction false} WindowCountBounded(s: Sensor, events: seq<Event>)
    ensures RunWindow(s, events).pulsesNum <= s.pulsesNum + EdgeCount(events)
    decreases |events|
  {
    if events != [] {
      var t := Deliver(s, events[0]);
      assert t.pulsesNum <= s.pulsesNum + (if events[0] == SenseEdge then 1 else 0);
      WindowCountBounded(t, events[1..]);
    }
  }

  /** A wait without edges leaves the P1 interrupt flags alone. */
  lemma {:induction false} EdgelessWindowKeepsFlags(s: Sensor, events: seq<Event>)
    requires EdgeCount(events) == 0
    ensures RunWindow(s, events).p1ifg == s.p1ifg
    decreases |events|
  {
    if events != [] {
      EdgelessWindowKeepsFlags(Deliver(s, events[0]), events[1..]);
    }
  }

  /**
   While detection is on and the timer does not fire, every edge of the wait
   is counted (modulo 2^16), and counting stays armed with no flag pending.
   */
  lemma {:induction false} ArmedWindowCountsEveryEdge(s: Sensor, events: seq<Event>)
    requires NoTicks(events)
    requires s.colourDetFlag != 0 && IsSet(s.p1ie, SENSE_PIN) && !IsSet(s.p1ifg, SENSE_PIN)
    ensures RunWindow(s, events).pulsesNum == (s.pulsesNum + EdgeCount(events)) % 0x1_0000
    ensures RunWindow(s, events).colourDetFlag == s.colourDetFlag
    ensures RunWindow(s, events).p1ie == s.p1ie
    ensures !IsSet(RunWindow(s, events).p1ifg, SENSE_PIN)
    decreases |events|
  {
    if events != [] {
      var t := Deliver(s, events[0]);
      assert events[0] == SenseEdge;
      assert t.pulsesNum == Inc16(s.pulsesNum);
      ArmedWindowCountsEveryEdge(t, events[1..]);
    }
  }

  /**
   When the timer never fires during the measurement waits, each channel's
   intensity is calibrated from exactly the edges of its own window: the count
   is reset between phases. The red count also includes one edge left pending
   from the settling wait, which `P1IE |= BIT3` services after the reset.
   */
  lemma ChannelsCountOwnWindow(s: Sensor, settle: seq<Event>, redWin: seq<Event>, greenWin: seq<Event>, blueWin: seq<Event>)
    requires NoTicks(redWin) && NoTicks(greenWin) && NoTicks(blueWin)
    ensures ColourDetect(s, settle, redWin, greenWin, blueWin).sensor.redVal
         == Calibrate(((if IsSet(Settled(s, settle).p1ifg, SENSE_PIN) then 1 else 0) + EdgeCount(redWin)) % 0x1_0000, RED_COEFF)
    ensures ColourDetect(s, settle, redWin, greenWin, blueWin).sensor.greenVal
         == Calibrate(EdgeCount(greenWin) % 0x1_0000, GREEN_COEFF)
    ensures ColourDetect(s, settle, redWin, greenWin, blueWin).sensor.blueVal
         == Calibrate(EdgeCount(blueWin) % 0x1_0000, BLUE_COEFF)
  {
    var s0 := Settled(s, settle);
    var pending := if IsSet(s0.p1ifg, SENSE_PIN) then 1 else 0;
    var s1 := EnableSenseIrq(s0.(redVal := 0, greenVal := 0, blueVal := 0, pulsesNum := 0, colourDetFlag := 1));
    var r0 := s1.(p8out := Set(s1.p8out, LEDS));
    assert r0.pulsesNum == pending;
    ArmedWindowCountsEveryEdge(r0, redWin);
    var r1 := RunWindow(r0, redWin);
    assert r1.pulsesNum == (pending + EdgeCount(redWin)) % 0x1_0000;
    var r2 := r1.(redVal := Calibrate(r1.pulsesNum, RED_COEFF));
    var g0 := r2.(pulsesNum := 0, p8out := Set(Clear(r2.p8out, LED_A), LED_B));
    ArmedWindowCountsEveryEdge(g0, greenWin);
    var g1 := RunWindow(g0, greenWin);
    var g2 := g1.(greenVal := Calibrate(g1.pulsesNum, GREEN_COEFF));
    var b0 := g2.(pulsesNum := 0, p8out := Set(Clear(g2.p8out, LED_B), LED_A));
    ArmedWindowCountsEveryEdge(b0, blueWin);
    var b1 := RunWindow(b0, blueWin);
    var b2 := b1.(blueVal := Calibrate(b1.pulsesNum, BLUE_COEFF));
    var d := ColourDetect(s, settle, redWin, greenWin, blueWin);
    assert d.sensor == b2.(p8out := Clear(b2.p8out, LEDS), p1ie := Clear(b2.p1ie, SENSE_PIN));
    assert d.sensor.redVal == Calibrate((pending + EdgeCount(redWin)) % 0x1_0000, RED_COEFF);
  }

  /** A settling wait without edges leaves nothing pending that was not pending before. */
  lemma QuietSettleLeavesNothingPending(s: Sensor, settle: seq<Event>)
    requires EdgeCount(settle) == 0 && !IsSet(s.p1ifg, SENSE_PIN)
    ensures !IsSet(Settled(s, settle).p1ifg, SENSE_PIN)
  {
    EdgelessWindowKeepsFlags(s.(p8out := Clear(s.p8out, LEDS)), settle);
  }

  /**
   With the P1.3 interrupt armed and no flag pending, as `initialiseColourSensor`
   leaves it, a settling wait leaves nothing pending either, provided detection
   is off or the timer does not fire: every edge is serviced as it arrives.
   */
  lemma {:induction false} ArmedSettleLeavesNothingPending(s: Sensor, events: seq<Event>)
    requires IsSet(s.p1ie, SENSE_PIN) && !IsSet(s.p1ifg, SENSE_PIN)
    requires s.colourDetFlag == 0 || NoTicks(events)
    ensures !IsSet(RunWindow(s, events).p1ifg, SENSE_PIN)
    ensures IsSet(RunWindow(s, events).p1ie, SENSE_PIN)
    ensures RunWindow(s, events).colourDetFlag == s.colourDetFlag
    decreases |events|
  {
    if events != [] {
      var t := Deliver(s, events[0]);
      assert IsSet(t.p1ie, SENSE_PIN) && t.colourDetFlag == s.colourDetFlag && !IsSet(t.p1ifg, SENSE_PIN) by {
        if events[0] == Tick10ms {
          assert s.colourDetFlag == 0;
        }
      }
      assert NoTicks(events) ==> NoTicks(events[1..]) by {
        if NoTicks(events) {
          forall i | 0 <= i < |events[1..]|
            ensures events[1..][i] == SenseEdge
          {
            assert events[1..][i] == events[i + 1];
          }
        }
      }
      ArmedSettleLeavesNothingPending(t, events[1..]);
    }
  }

  /**
   The part of `initialiseColourSensor` the sampler depends on: both LEDs off,
   the P1.3 interrupt enabled, then its flag cleared. With global interrupts
   already on, enabling P1.3 services a flag left pending since the last
   detection at once, exactly as `EnableSenseIrq` does, so a pending edge is
   counted here while detection is still on. The pin direction, pull-up and
   edge-select writes are not part of the state.
   */
  function InitialiseColourSensor(s: Sensor): (r: Sensor)
    ensures r.p8out & LEDS == 0 && SameOutside(r.p8out, s.p8out, LEDS)
    ensures IsSet(r.p1ie, SENSE_PIN) && SameOutside(r.p1ie, s.p1ie, SENSE_PIN)
    ensures !IsSet(r.p1ifg, SENSE_PIN) && SameOutside(r.p1ifg, s.p1ifg, SENSE_PIN)
    ensures IsSet(s.p1ifg, SENSE_PIN) && s.colourDetFlag != 0 ==> r.pulsesNum == Inc16(s.pulsesNum)
    ensures !IsSet(s.p1ifg, SENSE_PIN) || s.colourDetFlag == 0 ==> r.pulsesNum == s.pulsesNum
    ensures r == s.(p8out := r.p8out, p1ie := r.p1ie, p1ifg := r.p1ifg, pulsesNum := r.pulsesNum)
  {
    var s1 := EnableSenseIrq(s.(p8out := Clear(s.p8out, LEDS)));
    s1.(p1ifg := Clear(s1.p1ifg, SENSE_PIN))
  }

  /**
   The colour-sensor button path: initialise, then detect. `settle` stands for
   every event from the initialisation to the end of the settling wait (the
   handlers never touch the LEDs, so where the LEDs are switched off does not
   matter). If detection is off then or the timer does not fire, no edge is left
   pending, and the red intensity too is the calibration of exactly its own
   window's edges.
   */
  lemma InitialisedRedCountsOwnWindow(s: Sensor, settle: seq<Event>, redWin: seq<Event>, greenWin: seq<Event>, blueWin: seq<Event>)
    requires s.colourDetFlag == 0 || NoTicks(settle)
    requires NoTicks(redWin) && NoTicks(greenWin) && NoTicks(blueWin)
    ensures ColourDetect(InitialiseColourSensor(s), settle, redWin, greenWin, blueWin).sensor.redVal
         == Calibrate(EdgeCount(redWin) % 0x1_0000, RED_COEFF)
  {
    var i := InitialiseColourSensor(s);
    ArmedSettleLeavesNothingPending(i.(p8out := Clear(i.p8out, LEDS)), settle);
    ChannelsCountOwnWindow(i, settle, redWin, greenWin, blueWin);
  }
}
