/**
 * The Triple Timer Counter example: TTC0 raises a periodic interval interrupt that
 * the main loop logs, TTC1 generates a PWM waveform through its match register.
 *
 * The vendor's interval/prescaler solver (XTtcPs_CalcIntervalFromFreq) is not part of
 * this model: its two outputs arrive as parameters, and only its failure sentinels are
 * examined, as the example does.
 */
module Ttc {
  import opened Platform
  import Arith
  import FlagChannel

  const TTC0_FREQ_HZ: u32 := 1
  const TTC1_FREQ_HZ: u32 := 1000

  /** The values the vendor solver leaves behind when no setting fits a 16-bit counter. */
  const MAX_INTERVAL_COUNT: u16 := 0xFFFF
  const PRESCALER_FAILED: u8 := 0xFF

  /** Interrupt status / enable bits of the vendor driver (xttcps.h). */
  const IXR_INTERVAL_MASK: bv32 := 0x01
  const IXR_ALL_MASK: bv32 := 0x3F

  /** Option bits of the vendor driver (xttcps.h). */
  const OPTION_INTERVAL_MODE: bv16 := 0x04
  const OPTION_MATCH_MODE: bv16 := 0x10
  const OPTION_WAVE_DISABLE: bv16 := 0x20
  const OPTION_WAVE_POLARITY: bv16 := 0x40

  /** The PWM duty cycle TTC1 is set up with. */
  const PWM_DUTY_CYCLE: real := 0.63

  /** C's conversion of a floating value to an integer type: truncation toward zero. */
  function Trunc(x: real): (r: int)
    ensures 0.0 <= x ==> 0 <= r && r as real <= x < r as real + 1.0
    ensures x <= 0.0 ==> r <= 0 && r as real - 1.0 < x <= r as real
  {
    if 0.0 <= x then x.Floor else -((-x).Floor)
  }

  /**
   * `float(interval) * dutyCycle`, computed exactly: never negative for a
   * non-negative duty cycle, and never above the interval for one in [0, 1].
   */
  function Product(interval: u16, dutyCycle: real): (p: real)
    ensures 0.0 <= dutyCycle ==> 0.0 <= p
    ensures 0.0 <= dutyCycle <= 1.0 ==> p <= interval as real
  {
    Arith.ScaleFacts(interval as real, dutyCycle);
    interval as real * dutyCycle
  }

  /** The conversion to uint16_t is defined only when the truncated product fits. */
  predicate ProductFits(interval: u16, dutyCycle: real)
  {
    -1.0 < Product(interval, dutyCycle) < 65536.0
  }

  /** `uint16_t(float(interval) * dutyCycle)`. */
  function MatchValue(interval: u16, dutyCycle: real): (r: int)
    requires ProductFits(interval, dutyCycle)
    ensures 0 <= r < 0x1_0000
    ensures 0.0 <= dutyCycle ==> r as real <= Product(interval, dutyCycle) < r as real + 1.0
  {
    Trunc(Product(interval, dutyCycle))
  }

  /** For a duty cycle in [0, 1] the match value never exceeds the interval. */
  lemma MatchWithinInterval(interval: u16, dutyCycle: real)
    requires 0.0 <= dutyCycle <= 1.0
    ensures ProductFits(interval, dutyCycle)
    ensures 0 <= MatchValue(interval, dutyCycle) <= interval
  {
  }

  /** A full duty cycle puts the match value at the interval itself. */
  lemma FullDutyIsInterval(interval: u16)
    ensures MatchValue(interval, 1.0) == interval
  {
    MatchWithinInterval(interval, 1.0);
  }

  /**
   * Re-deriving the match value from the duty cycle it stands for gives it back:
   * feeding `m / interval` into the computation reproduces `m`.
   */
  lemma MatchRederivation(interval: u16, m: u16)
    requires 0 < interval && m <= interval
    ensures 0.0 <= m as real / interval as real <= 1.0
    ensures ProductFits(interval, m as real / interval as real)
    ensures MatchValue(interval, m as real / interval as real) == m
  {
    Arith.RatioInUnit(m as real, interval as real);
    MatchWithinInterval(interval, m as real / interval as real);
  }

  function Pow2(n: nat): (r: nat)
    ensures r >= 1
  {
    if n == 0 then 1 else 2 * Pow2(n - 1)
  }

  /** The clock that reaches the counter: the input clock divided by 2^(prescaler + 1). */
  function PrescaledClock(clk: nat, prescaler: nat): (r: nat)
    ensures r * Pow2(prescaler + 1) <= clk < (r + 1) * Pow2(prescaler + 1)
  {
    clk / Pow2(prescaler + 1)
  }

  /** Each step of the prescaler halves the counter clock (with truncation). */
  lemma PrescalerStepHalves(clk: nat, prescaler: nat)
    ensures PrescaledClock(clk, prescaler + 1) == PrescaledClock(clk, prescaler) / 2
  {
    assert Pow2(prescaler + 2) == 2 * Pow2(prescaler + 1);
    Arith.DivDiv(clk, Pow2(prescaler + 1), 2);
    assert Pow2(prescaler + 1) * 2 == Pow2(prescaler + 2);
  }

  /** The solver's outputs that the example treats as "no setting found". */
  predicate SolverFailed(interval: u16, prescaler: u8)
  {
    interval == MAX_INTERVAL_COUNT || prescaler == PRESCALER_FAILED
  }

  /** TmrCntrSetup: the settings chosen for one timer. */
  class CntrSetup {
    var frequency: u32
    var interval: u16
    var options: bv16
    var prescaler: u8

    constructor ()
      ensures frequency == 0 && interval == 0 && options == 0 && prescaler == 0
    {
      frequency, interval, options, prescaler := 0, 0, 0, 0;
    }
  }

  /** TmrPwmSetup: the settings of a PWM timer, with the match value. */
  class PwmSetup {
    var frequency: u32
    var interval: u16
    var options: bv16
    var prescaler: u8
    var matchValue: u16

    constructor ()
      ensures frequency == 0 && interval == 0 && options == 0 && prescaler == 0 && matchValue == 0
    {
      frequency, interval, options, prescaler, matchValue := 0, 0, 0, 0, 0;
    }

    /**
     * Derives the match value from the interval and a duty cycle. With a zero interval
     * the routine never returns (`returned` is false) and nothing changes; otherwise
     * only `matchValue` changes.
     */
    method CalcSetMatchValue(dutyCycle: real) returns (returned: bool)
      requires interval != 0 ==> ProductFits(interval, dutyCycle)
      modifies this`matchValue
      ensures returned <==> interval != 0
      ensures returned ==> matchValue == MatchValue(interval, dutyCycle)
      ensures !returned ==> matchValue == old(matchValue)
    {
      if interval == 0 {
        return false;
      }
      matchValue := MatchValue(interval, dutyCycle);
      returned := true;
    }
  }

  /** The pointer handed to the timer interrupt handler. */
  datatype Handle = Ttc0Instance | Ttc1Instance | OtherInstance

  /** The driver calls the example makes on one TTC device, in the order it makes them. */
  datatype TtcOp =
    | SetOptions(options: bv16)
    | SetInterval(interval: u16)
    | SetPrescaler(prescaler: u8)
    | DisableInterrupts(mask: bv32)
    | EnableInterrupts(mask: bv32)
    | SetMatchValue(index: nat, value: u16)
    | Start

  /** What the vendor driver answers while one timer is initialised. */
  datatype TtcReport = TtcReport(
    bringUp: DriverReport,
    setOptionsStatus: int,
    solvedInterval: u16,
    solvedPrescaler: u8)

  const TTC0_OPTIONS: bv16 := OPTION_INTERVAL_MODE | OPTION_WAVE_DISABLE
  const TTC1_OPTIONS: bv16 := OPTION_INTERVAL_MODE | OPTION_MATCH_MODE | OPTION_WAVE_POLARITY

  /** The phase a timer initialisation reaches before its PWM step, checks in source order. */
  function InitOutcome(r: TtcReport): Phase
  {
    match BringUp(r.bringUp)
    case Some(f) => Halted(f)
    case None =>
      if r.setOptionsStatus != XST_SUCCESS then Halted(OptionsRejected)
      else if SolverFailed(r.solvedInterval, r.solvedPrescaler) then Halted(SolverSentinel)
      else Running
  }

  /**
   * The driver calls an initialisation makes up to and including the prescaler:
   * none when bring-up fails, the options call whenever bring-up passes, and the
   * solver's interval and prescaler only when everything before them passed.
   */
  function SetupOps(r: TtcReport, options: bv16): seq<TtcOp>
  {
    if BringUp(r.bringUp).Some? then []
    else if InitOutcome(r).Halted? then [SetOptions(options)]
    else [SetOptions(options), SetInterval(r.solvedInterval), SetPrescaler(r.solvedPrescaler)]
  }

  /** A sentinel from the solver keeps the interval and prescaler away from the device. */
  lemma SentinelNeverProgrammed(r: TtcReport, options: bv16)
    requires SolverFailed(r.solvedInterval, r.solvedPrescaler)
    ensures InitOutcome(r).Halted?
    ensures forall op | op in SetupOps(r, options) :: !op.SetInterval? && !op.SetPrescaler?
  {
  }

  /** The program's globals: both setups, both devices, the expiry flag and the log. */
  class TtcApp {
    const ttc0Setup: CntrSetup
    const ttc1Setup: PwmSetup
    var ttc0Ops: seq<TtcOp>
    var ttc1Ops: seq<TtcOp>
    var ttc0Status: bv32
    var expired: bool
    var events: nat
    var phase: Phase
    ghost var history: seq<FlagChannel.Event>

    /** The flag and the number of logged events are those of the handshake history. */
    ghost predicate Valid()
      reads this
    {
      && expired == FlagChannel.FlagAfter(false, history)
      && events == FlagChannel.Observed(false, history)
    }

    constructor ()
      ensures Valid() && fresh(ttc0Setup) && fresh(ttc1Setup)
      ensures ttc0Setup.frequency == 0 && ttc0Setup.interval == 0 && ttc0Setup.options == 0
      ensures ttc0Setup.prescaler == 0
      ensures ttc1Setup.frequency == 0 && ttc1Setup.interval == 0 && ttc1Setup.options == 0
      ensures ttc1Setup.prescaler == 0 && ttc1Setup.matchValue == 0
      ensures ttc0Ops == [] && ttc1Ops == [] && ttc0Status == 0
      ensures !expired && events == 0 && phase == Running && history == []
    {
      ttc0Setup := new CntrSetup();
      ttc1Setup := new PwmSetup();
      ttc0Ops, ttc1Ops, ttc0Status := [], [], 0;
      expired, events, phase := false, 0, Running;
      history := [];
    }

    /**
     * InitTimerTtc0: bring-up checks, options, the solver's interval and prescaler
     * (refused when they are sentinels), then only the interval interrupt enabled.
     */
    method InitTimerTtc0(r: TtcReport)
      requires phase == Running
      modifies this`ttc0Ops, this`phase, ttc0Setup
      ensures phase == InitOutcome(r)
      ensures ttc0Ops == old(ttc0Ops) + SetupOps(r, TTC0_OPTIONS)
        + (if phase == Running then [DisableInterrupts(IXR_ALL_MASK), EnableInterrupts(IXR_INTERVAL_MASK)] else [])
      ensures BringUp(r.bringUp).Some? ==>
        && ttc0Setup.frequency == old(ttc0Setup.frequency) && ttc0Setup.options == old(ttc0Setup.options)
      ensures BringUp(r.bringUp).None? ==>
        ttc0Setup.frequency == TTC0_FREQ_HZ && ttc0Setup.options == TTC0_OPTIONS
      ensures BringUp(r.bringUp).Some? || r.setOptionsStatus != XST_SUCCESS ==>
        ttc0Setup.interval == old(ttc0Setup.interval) && ttc0Setup.prescaler == old(ttc0Setup.prescaler)
      ensures BringUp(r.bringUp).None? && r.setOptionsStatus == XST_SUCCESS ==>
        ttc0Setup.interval == r.solvedInterval && ttc0Setup.prescaler == r.solvedPrescaler
    {
      var fault := BringUp(r.bringUp);
      if fault.Some? {
        phase := Halted(fault.value);
        return;
      }
      ttc0Setup.frequency := TTC0_FREQ_HZ;
      ttc0Setup.options := TTC0_OPTIONS;
      ttc0Ops := ttc0Ops + [SetOptions(ttc0Setup.options)];
      if r.setOptionsStatus != XST_SUCCESS {
        phase := Halted(OptionsRejected);
        return;
      }
      ttc0Setup.interval, ttc0Setup.prescaler := r.solvedInterval, r.solvedPrescaler;
      if SolverFailed(ttc0Setup.interval, ttc0Setup.prescaler) {
        phase := Halted(SolverSentinel);
        return;
      }
      ttc0Ops := ttc0Ops + [SetInterval(ttc0Setup.interval), SetPrescaler(ttc0Setup.prescaler)];
      ttc0Ops := ttc0Ops + [DisableInterrupts(IXR_ALL_MASK), EnableInterrupts(IXR_INTERVAL_MASK)];
    }

    /**
     * InitTimerTtc1: as for TTC0 (without interrupts), then the match value for the
     * 0.63 duty cycle; a zero interval or a zero match value halts before the match
     * register is written, and a register that reads back another value halts after.
     */
    method InitTimerTtc1(r: TtcReport, matchReadBack: u16)
      requires phase == Running
      modifies this`ttc1Ops, this`phase, ttc1Setup
      ensures InitOutcome(r).Halted? ==> phase == InitOutcome(r) && ttc1Ops == old(ttc1Ops) + SetupOps(r, TTC1_OPTIONS)
      ensures InitOutcome(r).Halted? ==> ttc1Setup.matchValue == old(ttc1Setup.matchValue)
      ensures BringUp(r.bringUp).Some? ==>
        && ttc1Setup.frequency == old(ttc1Setup.frequency) && ttc1Setup.options == old(ttc1Setup.options)
      ensures BringUp(r.bringUp).None? ==>
        ttc1Setup.frequency == TTC1_FREQ_HZ && ttc1Setup.options == TTC1_OPTIONS
      ensures BringUp(r.bringUp).Some? || r.setOptionsStatus != XST_SUCCESS ==>
        ttc1Setup.interval == old(ttc1Setup.interval) && ttc1Setup.prescaler == old(ttc1Setup.prescaler)
      ensures BringUp(r.bringUp).None? && r.setOptionsStatus == XST_SUCCESS ==>
        ttc1Setup.interval == r.solvedInterval && ttc1Setup.prescaler == r.solvedPrescaler
      ensures InitOutcome(r) == Running ==>
        var m := MatchValue(r.solvedInterval, PWM_DUTY_CYCLE);
        && (r.solvedInterval == 0 ==>
              phase == Halted(ZeroInterval) && ttc1Setup.matchValue == old(ttc1Setup.matchValue))
        && (r.solvedInterval != 0 ==> ttc1Setup.matchValue == m)
        && ttc1Ops == old(ttc1Ops) + SetupOps(r, TTC1_OPTIONS)
             + (if r.solvedInterval != 0 && m != 0 then [SetMatchValue(0, m)] else [])
        && (r.solvedInterval != 0 && m == 0 ==> phase == Halted(ZeroMatchValue))
        && (r.solvedInterval != 0 && m != 0 ==>
              phase == if matchReadBack == m then Running else Halted(MatchReadBack))
    {
      var fault := BringUp(r.bringUp);
      if fault.Some? {
        phase := Halted(fault.value);
        return;
      }
      ttc1Setup.frequency := TTC1_FREQ_HZ;
      ttc1Setup.options := TTC1_OPTIONS;
      ttc1Ops := ttc1Ops + [SetOptions(ttc1Setup.options)];
      if r.setOptionsStatus != XST_SUCCESS {
        phase := Halted(OptionsRejected);
        return;
      }
      ttc1Setup.interval, ttc1Setup.prescaler := r.solvedInterval, r.solvedPrescaler;
      if SolverFailed(ttc1Setup.interval, ttc1Setup.prescaler) {
        phase := Halted(SolverSentinel);
        return;
      }
      ttc1Ops := ttc1Ops + [SetInterval(ttc1Setup.interval), SetPrescaler(ttc1Setup.prescaler)];
      MatchWithinInterval(ttc1Setup.interval, PWM_DUTY_CYCLE);
      var returned := ttc1Setup.CalcSetMatchValue(PWM_DUTY_CYCLE);
      if !returned {
        phase := Halted(ZeroInterval);
        return;
      }
      if ttc1Setup.matchValue == 0 {
        phase := Halted(ZeroMatchValue);
        return;
      }
      ttc1Ops := ttc1Ops + [SetMatchValue(0, ttc1Setup.matchValue)];
      if matchReadBack != ttc1Setup.matchValue {
        phase := Halted(MatchReadBack);
      }
    }

    /**
     * TimerIrqHandler: ignores any argument but the TTC0 instance; otherwise, only when
     * the interval bit is pending, clears that bit and then raises the flag.
     */
    method TimerIrqHandler(arg: Handle)
      requires Valid()
      modifies this`ttc0Status, this`expired, this`history
      ensures Valid()
      ensures arg == Ttc0Instance && old(ttc0Status) & IXR_INTERVAL_MASK != 0 ==>
        && ttc0Status == old(ttc0Status) & !IXR_INTERVAL_MASK
        && expired
        && history == old(history) + [FlagChannel.Raise]
      ensures arg != Ttc0Instance || old(ttc0Status) & IXR_INTERVAL_MASK == 0 ==>
        ttc0Status == old(ttc0Status) && expired == old(expired) && history == old(history)
    {
      if arg != Ttc0Instance {
        return;
      }
      var irqStatus := ttc0Status;
      if irqStatus & IXR_INTERVAL_MASK != 0 {
        ttc0Status := ttc0Status & !IXR_INTERVAL_MASK;
        FlagChannel.Extend(false, history, FlagChannel.Raise);
        expired := true;
        history := history + [FlagChannel.Raise];
      }
    }

    /**
     * The hardware side of TTC0: once the counter is started, each elapsed interval
     * sets the interval bit of its status register, leaving the other bits as they were.
     */
    method IntervalElapses()
      requires Start in ttc0Ops
      modifies this`ttc0Status
      ensures ttc0Status == old(ttc0Status) | IXR_INTERVAL_MASK
      ensures ttc0Status & IXR_INTERVAL_MASK != 0
    {
      ttc0Status := ttc0Status | IXR_INTERVAL_MASK;
    }

    /**
     * One pass of the application loop's wait: when the flag is set, clear it and
     * then log one event; when it is clear, spin once.
     */
    method PollExpired() returns (acted: bool)
      requires Valid() && phase == Running
      modifies this`expired, this`events, this`history
      ensures Valid()
      ensures acted == old(expired) && !expired
      ensures events == old(events) + (if acted then 1 else 0)
      ensures history == old(history) + [FlagChannel.Poll]
    {
      FlagChannel.Extend(false, history, FlagChannel.Poll);
      history := history + [FlagChannel.Poll];
      acted := expired;
      if expired {
        expired := false;
        events := events + 1;
      }
    }

    /**
     * main, up to its loop: TTC0, TTC1 and the interrupt controller are initialised in
     * that order (each halting on failure), then both timers are started.
     */
    method Boot(r0: TtcReport, r1: TtcReport, matchReadBack: u16, gic: DriverReport)
      requires phase == Running && ttc0Ops == [] && ttc1Ops == []
      modifies this`ttc0Ops, this`ttc1Ops, this`phase, ttc0Setup, ttc1Setup
      ensures phase == Running <==>
        && InitOutcome(r0) == Running && InitOutcome(r1) == Running && r1.solvedInterval != 0
        && MatchValue(r1.solvedInterval, PWM_DUTY_CYCLE) != 0
        && matchReadBack == MatchValue(r1.solvedInterval, PWM_DUTY_CYCLE)
        && BringUp(gic).None?
      ensures phase == Running ==>
        && ttc1Setup.matchValue == MatchValue(r1.solvedInterval, PWM_DUTY_CYCLE)
        && ttc0Ops == [SetOptions(TTC0_OPTIONS), SetInterval(r0.solvedInterval),
             SetPrescaler(r0.solvedPrescaler), DisableInterrupts(IXR_ALL_MASK),
             EnableInterrupts(IXR_INTERVAL_MASK), Start]
        && ttc1Ops == [SetOptions(TTC1_OPTIONS), SetInterval(r1.solvedInterval),
             SetPrescaler(r1.solvedPrescaler), SetMatchValue(0, ttc1Setup.matchValue), Start]
        && 0 < ttc1Setup.matchValue <= ttc1Setup.interval
      ensures phase.Halted? ==> Start !in ttc0Ops && Start !in ttc1Ops
    {
      InitTimerTtc0(r0);
      if phase != Running {
        return;
      }
      InitTimerTtc1(r1, matchReadBack);
      if phase != Running {
        return;
      }
      var fault := BringUp(gic);
      if fault.Some? {
        phase := Halted(fault.value);
        return;
      }
      MatchWithinInterval(r1.solvedInterval, PWM_DUTY_CYCLE);
      ttc0Ops := ttc0Ops + [Start];
      ttc1Ops := ttc1Ops + [Start];
    }
  }
}
