/**
 The RGB indicator renderer.

 Red is a hardware compare channel of Timer_A0 (TA0.1 on P1.7, duty in TA0CCR1,
 period in TA0CCR0). Green (P1.6) and blue (P1.5) are software channels: the
 CCR2 compare interrupt advances a free-running phase counter modulo 256 and
 switches each pin on exactly when the new phase is below that channel's duty
 target. Register values of the MSP430 device header are written out as
 constants below.
 */
module Pwm {
  import opened Registers
  import opened Arith

  /** Number of phases of one software PWM cycle: `pwmCount` runs modulo 256. */
  const PHASES: nat := 256

  /** Timer_A0 interrupt vector values (TA0IV). */
  const TA0IV_NONE: uint16 := 0x00
  const TA0IV_TACCR1: uint16 := 0x02
  const TA0IV_TACCR2: uint16 := 0x04
  const TA0IV_TAIFG: uint16 := 0x0E

  /** Timer_A0 control-register field values. */
  const TASSEL_2: uint16 := 0x0200
  const MC_1: uint16 := 0x0010
  const OUTMOD_7: uint16 := 0x00E0
  const CCIE: uint16 := 0x0010

  /** Hardware period and the CCR2 interrupt interval programmed at start-up. */
  const RED_PERIOD: uint16 := 100
  const SW_PWM_INTERVAL: uint16 := 5

  const BLUE_PIN: bv8 := BIT5
  const GREEN_PIN: bv8 := BIT6
  const RED_PIN: bv8 := BIT7
  const SW_PINS: bv8 := BIT5 | BIT6

  /**
   Everything the renderer reads or writes: port 1 registers, the Timer_A0
   registers, the two software duty globals and the ISR's static phase counter.
   */
  datatype Rgb = Rgb(
    p1dir: bv8,
    p1out: bv8,
    p1sel0: bv8,
    ta0ctl: uint16,
    ta0ccr0: uint16,
    ta0cctl1: uint16,
    ta0ccr1: uint16,
    ta0cctl2: uint16,
    ta0ccr2: uint16,
    greenDutyCycle: uint16,
    blueDutyCycle: uint16,
    pwmCount: uint16)

  /** The two software-rendered channels. */
  datatype Channel = Green | Blue

  function Duty(s: Rgb, ch: Channel): uint16 {
    match ch
    case Green => s.greenDutyCycle
    case Blue => s.blueDutyCycle
  }

  function Pin(ch: Channel): bv8 {
    match ch
    case Green => GREEN_PIN
    case Blue => BLUE_PIN
  }

  predicate IsOn(s: Rgb, ch: Channel) {
    IsSet(s.p1out, Pin(ch))
  }

  /**
   The C start-up image: the duty globals and the static phase counter are
   zero-initialised; the hardware registers hold whatever `hw` says.
   */
  function StartupGlobals(hw: Rgb): (s: Rgb)
    ensures s.greenDutyCycle == 0 && s.blueDutyCycle == 0 && s.pwmCount == 0
    ensures s == hw.(greenDutyCycle := s.greenDutyCycle, blueDutyCycle := s.blueDutyCycle, pwmCount := s.pwmCount)
  {
    hw.(greenDutyCycle := 0, blueDutyCycle := 0, pwmCount := 0)
  }

  /** `setupTimerForSWPWM`: CCR2 interrupt enabled, compare value 5. */
  function SetupTimerForSwPwm(s: Rgb): (r: Rgb)
    ensures r.ta0cctl2 == CCIE && r.ta0ccr2 == SW_PWM_INTERVAL
    ensures r == s.(ta0cctl2 := r.ta0cctl2, ta0ccr2 := r.ta0ccr2)
  {
    s.(ta0cctl2 := CCIE, ta0ccr2 := SW_PWM_INTERVAL)
  }

  /** `setupGPIO`: P1.5 and P1.6 become outputs and are driven low. */
  function SetupGpio(s: Rgb): (r: Rgb)
    ensures IsSet(r.p1dir, BLUE_PIN) && IsSet(r.p1dir, GREEN_PIN)
    ensures !IsOn(r, Blue) && !IsOn(r, Green)
    ensures SameOutside(r.p1dir, s.p1dir, SW_PINS) && SameOutside(r.p1out, s.p1out, SW_PINS)
    ensures r == s.(p1dir := r.p1dir, p1out := r.p1out)
  {
    s.(p1dir := Set(s.p1dir, SW_PINS), p1out := Clear(s.p1out, SW_PINS))
  }

  /**
   `setupPWM`: P1.7 becomes the TA0.1 output (initially low), the timer runs
   from SMCLK in up mode with period 100, CCR1 in reset/set mode with duty 0.
   (The watchdog write at the head of the C function is not modelled.)
   */
  function SetupPwm(s: Rgb): (r: Rgb)
    ensures r.ta0ccr0 == RED_PERIOD && r.ta0ccr1 == 0 && r.ta0cctl1 == OUTMOD_7
    ensures r.ta0ctl == TASSEL_2 + MC_1
    ensures IsSet(r.p1dir, RED_PIN) && IsSet(r.p1sel0, RED_PIN) && !IsSet(r.p1out, RED_PIN)
    ensures SameOutside(r.p1dir, s.p1dir, RED_PIN) && SameOutside(r.p1out, s.p1out, RED_PIN)
    ensures SameOutside(r.p1sel0, s.p1sel0, RED_PIN)
    ensures r == s.(p1dir := r.p1dir, p1out := r.p1out, p1sel0 := r.p1sel0, ta0ctl := r.ta0ctl,
                    ta0ccr0 := r.ta0ccr0, ta0cctl1 := r.ta0cctl1, ta0ccr1 := r.ta0ccr1)
  {
    var s1 := s.(p1dir := Set(s.p1dir, RED_PIN), p1out := Clear(s.p1out, RED_PIN));
    var s2 := s1.(p1sel0 := Set(s1.p1sel0, RED_PIN));
    s2.(ta0ctl := TASSEL_2 + MC_1, ta0ccr0 := RED_PERIOD, ta0cctl1 := OUTMOD_7, ta0ccr1 := 0)
  }

  /** The two states differ at most in the three duty targets. */
  predicate SameExceptDuty(s: Rgb, r: Rgb) {
    r == s.(ta0ccr1 := r.ta0ccr1, greenDutyCycle := r.greenDutyCycle, blueDutyCycle := r.blueDutyCycle)
  }

  /**
   `setRGBDutyCycle`: the red target goes to the compare register, the green
   and blue targets to the software globals, unclamped; nothing else changes.
   */
  function SetRgbDutyCycle(s: Rgb, red: uint16, green: uint16, blue: uint16): (r: Rgb)
    ensures r.ta0ccr1 == red && r.greenDutyCycle == green && r.blueDutyCycle == blue
    ensures SameExceptDuty(s, r)
  {
    s.(ta0ccr1 := red, greenDutyCycle := green, blueDutyCycle := blue)
  }

  /** Writing the same targets twice is the same as writing them once. */
  lemma SetRgbDutyCycleIdempotent(s: Rgb, red: uint16, green: uint16, blue: uint16)
    ensures SetRgbDutyCycle(SetRgbDutyCycle(s, red, green, blue), red, green, blue)
         == SetRgbDutyCycle(s, red, green, blue)
  {
  }

  /** Of two consecutive writes only the second is visible. */
  lemma SetRgbDutyCycleLastWins(s: Rgb, r1: uint16, g1: uint16, b1: uint16, r2: uint16, g2: uint16, b2: uint16)
    ensures SetRgbDutyCycle(SetRgbDutyCycle(s, r1, g1, b1), r2, g2, b2) == SetRgbDutyCycle(s, r2, g2, b2)
  {
  }

  /** The period programmed by `setupPWM` survives any duty update. */
  lemma SetRgbDutyCycleKeepsPeriod(s: Rgb, red: uint16, green: uint16, blue: uint16)
    ensures SetRgbDutyCycle(SetupPwm(s), red, green, blue).ta0ccr0 == RED_PERIOD
  {
  }

  /**
   `Timer_A_ISR` (TIMER0_A1 vector): on a CCR2 interrupt the phase advances by
   one modulo 256 (computed in 16-bit unsigned arithmetic, as in C) and P1.5 /
   P1.6 follow the comparison of the new phase with the blue / green targets.
   Every other vector value is ignored.
   */
  function TimerA1Isr(s: Rgb, ta0iv: uint16): (r: Rgb)
    ensures ta0iv != TA0IV_TACCR2 ==> r == s
    ensures ta0iv == TA0IV_TACCR2 ==>
      && r.pwmCount < PHASES
      && r.pwmCount == (s.pwmCount + 1) % PHASES
      && (IsOn(r, Blue) <==> r.pwmCount < s.blueDutyCycle)
      && (IsOn(r, Green) <==> r.pwmCount < s.greenDutyCycle)
      && SameOutside(r.p1out, s.p1out, SW_PINS)
      && r == s.(pwmCount := r.pwmCount, p1out := r.p1out)
  {
    if ta0iv == TA0IV_TACCR2 then
      var count := Inc16(s.pwmCount) % 256;
      var out1 := Drive(s.p1out, BLUE_PIN, count < s.blueDutyCycle);
      var out2 := Drive(out1, GREEN_PIN, count < s.greenDutyCycle);
      s.(pwmCount := count, p1out := out2)
    else
      s
  }

  /** The handler acts on CCR2 only: no other vector value, including "no interrupt", changes anything. */
  lemma OtherVectorsIgnored(s: Rgb)
    ensures TimerA1Isr(s, TA0IV_NONE) == s
    ensures TimerA1Isr(s, TA0IV_TACCR1) == s
    ensures TimerA1Isr(s, TA0IV_TAIFG) == s
  {
  }

  /** One software PWM tick: a CCR2 compare interrupt. */
  function Tick(s: Rgb): Rgb {
    TimerA1Isr(s, TA0IV_TACCR2)
  }

  /** How many of the next `n` ticks leave channel `ch` switched on. */
  function OnTicks(s: Rgb, ch: Channel, n: nat): (on: nat)
    ensures on <= n
    decreases n
  {
    if n == 0 then 0
    else
      var t := Tick(s);
      (if IsOn(t, ch) then 1 else 0) + OnTicks(t, ch, n - 1)
  }

  /** One step of the phase counter, without modular arithmetic: 255 wraps to 0. */
  function NextPhase(p: int): int {
    if p + 1 >= PHASES then 0 else p + 1
  }

  /** The phase reached `k` ticks after phase `p`. */
  function PhaseAfter(p: int, k: nat): int
    decreases k
  {
    if k == 0 then p else PhaseAfter(NextPhase(p), k - 1)
  }

  /**
   Reference count over bare phases: of the phases reached 1, 2, ..., n ticks
   after phase `p`, how many are below `d`.
   */
  function PhaseCount(p: int, d: int, n: nat): (c: nat)
    ensures c <= n
    decreases n
  {
    if n == 0 then 0
    else
      var q := NextPhase(p);
      (if q < d then 1 else 0) + PhaseCount(q, d, n - 1)
  }

  /** Stepping the counter `k` times from a valid phase is adding `k` modulo 256. */
  lemma {:induction false} PhaseAfterIsMod(p: int, k: nat)
    requires 0 <= p < PHASES
    ensures PhaseAfter(p, k) == (p + k) % PHASES
    decreases k
  {
    if k > 0 {
      var q := NextPhase(p);
      PhaseAfterIsMod(q, k - 1);
      if p == PHASES - 1 {
        assert q + k - 1 == p + k - PHASES;
      }
    }
  }

  /** The renderer's on-ticks are exactly the phase count of its duty target. */
  lemma {:induction false} OnTicksIsPhaseCount(s: Rgb, ch: Channel, n: nat)
    requires s.pwmCount < PHASES
    ensures OnTicks(s, ch, n) == PhaseCount(s.pwmCount, Duty(s, ch), n)
    decreases n
  {
    if n > 0 {
      var t := Tick(s);
      assert t.pwmCount == NextPhase(s.pwmCount);
      assert Duty(t, ch) == Duty(s, ch);
      assert IsOn(t, ch) <==> t.pwmCount < Duty(s, ch) by {
        match ch
        case Green =>
        case Blue =>
      }
      OnTicksIsPhaseCount(t, ch, n - 1);
    }
  }

  /** Peeling the last phase off instead of the first. */
  lemma {:induction false} PhaseCountSnoc(p: int, d: int, n: nat)
    ensures PhaseCount(p, d, n + 1) == PhaseCount(p, d, n) + (if PhaseAfter(p, n + 1) < d then 1 else 0)
    decreases n
  {
    if n > 0 {
      PhaseCountSnoc(NextPhase(p), d, n - 1);
    }
  }

  // The full-cycle lemmas below take the cycle length as a parameter `n`
  // required to equal PHASES (256) instead of writing the literal: with the
  // literal in the goal the solver would try to unfold `PhaseCount` 256 times.

  /** A full cycle counts the same from a phase as from the next one. */
  lemma PhaseCountRotate(p: int, d: int, n: nat)
    requires 0 <= p < PHASES - 1 && n == PHASES
    ensures PhaseCount(p + 1, d, n) == PhaseCount(p, d, n)
  {
    var q := p + 1;
    assert NextPhase(p) == q;
    var first := if q < d then 1 else 0;
    assert PhaseCount(p, d, n) == first + PhaseCount(q, d, n - 1);
    PhaseCountSnoc(q, d, n - 1);
    FullTurn(q, n);
    assert PhaseCount(q, d, n) == PhaseCount(q, d, n - 1) + first;
  }

  /** A full turn of the counter comes back to the same phase. */
  lemma FullTurn(q: int, n: nat)
    requires 0 <= q < PHASES && n == PHASES
    ensures PhaseAfter(q, n) == q
  {
    PhaseAfterIsMod(q, n);
  }

  /** A full cycle counts the same from any starting phase. */
  lemma {:induction false} PhaseCountAnyStart(p: int, d: int, n: nat)
    requires 0 <= p < PHASES && n == PHASES
    ensures PhaseCount(p, d, n) == PhaseCount(0, d, n)
    decreases p
  {
    if p > 0 {
      var prev := p - 1;
      PhaseCountRotate(prev, d, n);
      assert PhaseCount(p, d, n) == PhaseCount(prev, d, n);
      PhaseCountAnyStart(prev, d, n);
    }
  }

  /** Before the first wrap, phases 1..n are counted when they are below `d`. */
  lemma {:induction false} PhaseCountFromZero(d: int, n: nat)
    requires n < PHASES
    ensures PhaseCount(0, d, n) == if d <= 1 then 0 else Min(n, d - 1)
    decreases n
  {
    if n > 0 {
      PhaseCountSnoc(0, d, n - 1);
      PhaseAfterIsMod(0, n);
      PhaseCountFromZero(d, n - 1);
    }
  }

  /**
   Over any 256 consecutive ticks with fixed targets, a software channel is on
   exactly min(d, 256) times: never for d = 0 and always for d >= 256.
   `n` is the cycle length, 256.
   */
  lemma FullCycleDuty(s: Rgb, ch: Channel, n: nat)
    requires s.pwmCount < PHASES && n == PHASES
    ensures OnTicks(s, ch, n) == Min(Duty(s, ch), PHASES)
  {
    var d := Duty(s, ch);
    OnTicksIsPhaseCount(s, ch, n);
    PhaseCountAnyStart(s.pwmCount, d, n);
    PhaseCountFullCycle(d, n);
  }

  /** One full cycle from phase 0 visits 1, ..., 255 and then 0. */
  lemma PhaseCountFullCycle(d: int, n: nat)
    requires d >= 0 && n == PHASES
    ensures PhaseCount(0, d, n) == Min(d, PHASES)
  {
    PhaseCountSnoc(0, d, n - 1);
    FullTurn(0, n);
    PhaseCountFromZero(d, n - 1);
  }

  /** Ticking never touches the red channel: its compare register and the period stay put. */
  lemma {:induction false} TicksKeepRedChannel(s: Rgb, n: nat)
    ensures TicksFrom(s, n).ta0ccr1 == s.ta0ccr1 && TicksFrom(s, n).ta0ccr0 == s.ta0ccr0
    ensures IsSet(TicksFrom(s, n).p1out, RED_PIN) == IsSet(s.p1out, RED_PIN)
    ensures TicksFrom(s, n).pwmCount < PHASES || n == 0
    decreases n
  {
    if n > 0 {
      TicksKeepRedChannel(Tick(s), n - 1);
    }
  }

  /** The state after `n` ticks. */
  function TicksFrom(s: Rgb, n: nat): (r: Rgb)
    decreases n
  {
    if n == 0 then s else TicksFrom(Tick(s), n - 1)
  }

}
