/**
 * The watchdog example: the SCU watchdog is armed for five seconds; a rising edge on
 * button BTN8 raises a flag, and the main loop restarts ("pets") the watchdog once
 * per observed press. Whether the previous run ended in a watchdog reset is read
 * once at boot.
 */
module Watchdog {
  import opened Platform
  import FlagChannel
  import ClockTicks

  const PIN_BTN8: nat := 50
  const TYPE_INPUT: int := 0
  const HIGH: int := 1
  const LOW: int := 0

  /** The driver calls the example makes on the watchdog, in order. */
  datatype WdtOp = SetWdMode | Load(value: u32) | Start | QueryExpired | Restart

  /** The driver calls InitGpio makes on the GPIO after its checks, in order. */
  datatype ButtonOp =
    | SetDirectionPin(pin: nat, direction: int)
    | SetRisingEdgeIrq(pin: nat)
    | SetCallbackHandler
    | IntrEnablePin(pin: nat)

  /** BTN8 is made an input, set to interrupt on its rising edge, given the handler, enabled. */
  function ButtonOps(): seq<ButtonOp>
  {
    [SetDirectionPin(PIN_BTN8, TYPE_INPUT), SetRisingEdgeIrq(PIN_BTN8), SetCallbackHandler, IntrEnablePin(PIN_BTN8)]
  }

  /**
   * The button set-up touches BTN8 alone, as an input, and enables its interrupt only
   * after the trigger and the handler are in place.
   */
  lemma ButtonSetupOrder()
    ensures forall op <- ButtonOps() :: !op.SetCallbackHandler? ==> op.pin == PIN_BTN8
    ensures forall op <- ButtonOps() :: op.SetDirectionPin? ==> op.direction == TYPE_INPUT
    ensures forall i | 0 <= i < |ButtonOps()| && ButtonOps()[i].IntrEnablePin? :: i == |ButtonOps()| - 1
  {
  }

  /** What the example prints. */
  datatype Message = WatchdogExpired | ResetByWatchdog | PoweredUpNormally | ButtonPressed

  /** The watchdog load: five one-second counts. */
  function TimeoutTicks(cpuClk: nat): nat
  {
    5 * ClockTicks.OneSecondTicks(cpuClk)
  }

  /** The load register is 32 bits wide; the board clock must keep the timeout in range. */
  predicate ClockFits(cpuClk: nat)
  {
    TimeoutTicks(cpuClk) < 0x1_0000_0000
  }

  /** InitWatchdog's driver calls after its checks: watchdog mode, the load, the start. */
  function ArmOps(cpuClk: nat): seq<WdtOp>
    requires ClockFits(cpuClk)
  {
    [SetWdMode, Load(TimeoutTicks(cpuClk)), Start]
  }

  /**
   * The shape of every run past boot: arm, one query of the boot latch, and then only
   * restarts.
   */
  ghost predicate Supervised(cpuClk: nat, ops: seq<WdtOp>)
    requires ClockFits(cpuClk)
  {
    && |ops| >= 4
    && ops[..4] == ArmOps(cpuClk) + [QueryExpired]
    && forall i | 4 <= i < |ops| :: ops[i] == Restart
  }

  /** In a supervised run the boot latch is queried exactly once, before every restart. */
  lemma QueriedOnceBeforeRestarts(cpuClk: nat, ops: seq<WdtOp>)
    requires ClockFits(cpuClk) && Supervised(cpuClk, ops)
    ensures ops[3] == QueryExpired
    ensures forall i | 0 <= i < |ops| && ops[i] == QueryExpired :: i == 3
    ensures forall i | 0 <= i < |ops| && ops[i] == Restart :: 3 < i
  {
    var prefix := ArmOps(cpuClk) + [QueryExpired];
    assert forall i | 0 <= i < 4 :: ops[i] == prefix[i] by {
      forall i | 0 <= i < 4
        ensures ops[i] == prefix[i]
      {
        assert ops[..4][i] == ops[i];
      }
    }
  }

  class WatchdogApp {
    const cpuClk: nat
    var ops: seq<WdtOp>
    var gpioOps: seq<ButtonOp>
    var btnFlag: bool
    var console: seq<Message>
    var phase: Phase
    ghost var history: seq<FlagChannel.Event>

    /** The button flag follows the handshake history. */
    ghost predicate Valid()
      reads this
    {
      && ClockFits(cpuClk)
      && btnFlag == FlagChannel.FlagAfter(false, history)
    }

    /**
     * Past boot: the run is supervised and there has been exactly one restart per
     * observed button press.
     */
    ghost predicate Booted()
      reads this
    {
      && Valid()
      && Supervised(cpuClk, ops)
      && |ops| - 4 == FlagChannel.Observed(false, history)
    }

    constructor (cpuClk: nat)
      requires ClockFits(cpuClk)
      ensures Valid() && this.cpuClk == cpuClk
      ensures ops == [] && gpioOps == [] && !btnFlag && console == [] && phase == Running && history == []
    {
      this.cpuClk := cpuClk;
      ops, gpioOps, btnFlag, console, phase := [], [], false, [], Running;
      history := [];
    }

    /**
     * InitWatchdog: a missing configuration, a failed initialisation or a failed
     * self-test halts; otherwise watchdog mode, the five-second load and the start
     * are issued in that order.
     */
    method InitWatchdog(r: DriverReport)
      requires Valid() && phase == Running
      modifies this`ops, this`phase
      ensures BringUp(r).Some? ==> phase == Halted(BringUp(r).value) && ops == old(ops)
      ensures BringUp(r).None? ==> phase == Running && ops == old(ops) + ArmOps(cpuClk)
    {
      var fault := BringUp(r);
      if fault.Some? {
        phase := Halted(fault.value);
        return;
      }
      ops := ops + [SetWdMode];
      ops := ops + [Load(TimeoutTicks(cpuClk))];
      ops := ops + [Start];
    }

    /**
     * InitGpio: a missing configuration, a failed initialisation or a failed self-test
     * halts; otherwise BTN8 is set up as the interrupting input.
     */
    method InitGpio(r: DriverReport)
      requires phase == Running
      modifies this`gpioOps, this`phase
      ensures BringUp(r).Some? ==> phase == Halted(BringUp(r).value) && gpioOps == old(gpioOps)
      ensures BringUp(r).None? ==> phase == Running && gpioOps == old(gpioOps) + ButtonOps()
    {
      var fault := BringUp(r);
      if fault.Some? {
        phase := Halted(fault.value);
        return;
      }
      gpioOps := gpioOps + [SetDirectionPin(PIN_BTN8, TYPE_INPUT)];
      gpioOps := gpioOps + [SetRisingEdgeIrq(PIN_BTN8)];
      gpioOps := gpioOps + [SetCallbackHandler];
      gpioOps := gpioOps + [IntrEnablePin(PIN_BTN8)];
    }

    /** GpioIrqHandler: raises the flag only when BTN8 reads HIGH. */
    method GpioIrqHandler(btn8: int)
      requires Valid()
      modifies this`btnFlag, this`history
      ensures Valid()
      ensures old(Booted()) ==> Booted()
      ensures btn8 == HIGH ==> btnFlag && history == old(history) + [FlagChannel.Raise]
      ensures btn8 != HIGH ==> btnFlag == old(btnFlag) && history == old(history)
    {
      if btn8 == HIGH {
        FlagChannel.Extend(false, history, FlagChannel.Raise);
        btnFlag := true;
        history := history + [FlagChannel.Raise];
      }
    }

    /** WatchdogIrqHandler: prints one line and changes nothing else. */
    method WatchdogIrqHandler()
      modifies this`console
      ensures console == old(console) + [WatchdogExpired]
    {
      console := console + [WatchdogExpired];
    }

    /** The boot-time question: did the previous run end in a watchdog reset? */
    method ReportBootCause(latched: bool)
      modifies this`ops, this`console
      ensures ops == old(ops) + [QueryExpired]
      ensures console == old(console) + [if latched then ResetByWatchdog else PoweredUpNormally]
    {
      ops := ops + [QueryExpired];
      if latched {
        console := console + [ResetByWatchdog];
      } else {
        console := console + [PoweredUpNormally];
      }
    }

    /**
     * main, up to its loop: the watchdog, the GPIO and the interrupt controller are
     * brought up in that order, then the boot latch is read, once.
     */
    method Boot(wdt: DriverReport, gpio: DriverReport, gic: DriverReport, latched: bool)
      requires Valid() && phase == Running && ops == [] && gpioOps == [] && history == []
      modifies this`ops, this`gpioOps, this`phase, this`console
      ensures Valid()
      ensures phase == Running <==> BringUp(wdt).None? && BringUp(gpio).None? && BringUp(gic).None?
      ensures BringUp(wdt).None? && BringUp(gpio).None? ==> gpioOps == ButtonOps()
      ensures BringUp(wdt).Some? || BringUp(gpio).Some? ==> gpioOps == []
      ensures phase == Running ==> Booted() && ops == ArmOps(cpuClk) + [QueryExpired]
      ensures phase == Running ==>
        console == old(console) + [if latched then ResetByWatchdog else PoweredUpNormally]
      ensures phase.Halted? ==> QueryExpired !in ops && Restart !in ops
    {
      InitWatchdog(wdt);
      if phase != Running {
        return;
      }
      InitGpio(gpio);
      if phase != Running {
        return;
      }
      var fault := BringUp(gic);
      if fault.Some? {
        phase := Halted(fault.value);
        return;
      }
      ReportBootCause(latched);
      assert ops[..4] == ops;
    }

    /**
     * One pass of the application loop: when the button flag is set, clear it, restart
     * the watchdog once and print one line; otherwise spin once.
     */
    method PollButton() returns (acted: bool)
      requires Booted() && phase == Running
      modifies this`btnFlag, this`history, this`ops, this`console
      ensures Booted()
      ensures acted == old(btnFlag) && !btnFlag
      ensures ops == old(ops) + (if acted then [Restart] else [])
      ensures console == old(console) + (if acted then [ButtonPressed] else [])
      ensures history == old(history) + [FlagChannel.Poll]
    {
      FlagChannel.Extend(false, history, FlagChannel.Poll);
      history := history + [FlagChannel.Poll];
      acted := btnFlag;
      if btnFlag {
        btnFlag := false;
        ops := ops + [Restart];
        console := console + [ButtonPressed];
        assert ops[..4] == old(ops)[..4];
      }
    }
  }

  /**
   * No restart without a press: in a booted run the restarts, plus a press still
   * pending, never outnumber the raises of the button flag.
   */
  lemma RestartsBoundedByPresses(app: WatchdogApp)
    requires app.Booted()
    ensures |app.ops| - 4 + (if app.btnFlag then 1 else 0) <= FlagChannel.Raises(app.history)
  {
    FlagChannel.ObservedBoundedByRaises(false, app.history);
  }
}
