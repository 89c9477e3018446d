/**
 * The private timer example: the Cortex-A9 private timer counts a one-second load
 * down to zero; its interrupt handler raises a flag and re-arms the timer, and the
 * main loop logs one line per observed expiry.
 */
module PrivateTimer {
  import opened Platform
  import FlagChannel
  import ClockTicks

  /** The driver calls the example makes on the timer, in order. */
  datatype TimerOp = EnableInterrupt | Load(value: nat) | Start

  /** main's driver calls when every bring-up succeeds. */
  function BootOps(cpuClk: nat): seq<TimerOp>
  {
    [EnableInterrupt, Load(ClockTicks.OneSecondTicks(cpuClk)), Start]
  }

  class TimerApp {
    const cpuClk: nat
    var ops: seq<TimerOp>
    /** The value last loaded into the counter. */
    var load: nat
    /** The counter is counting down. */
    var running: bool
    var expired: bool
    var logs: nat
    var phase: Phase
    ghost var history: seq<FlagChannel.Event>

    /** The flag and the number of "Timer expired!" lines follow the handshake history. */
    ghost predicate Valid()
      reads this
    {
      && expired == FlagChannel.FlagAfter(false, history)
      && logs == FlagChannel.Observed(false, history)
    }

    constructor (cpuClk: nat)
      ensures Valid() && this.cpuClk == cpuClk
      ensures ops == [] && load == 0 && !running && !expired && logs == 0
      ensures phase == Running && history == []
    {
      this.cpuClk := cpuClk;
      ops, load, running := [], 0, false;
      expired, logs, phase := false, 0, Running;
      history := [];
    }

    /**
     * InitTimer: the lookup, initialisation and self-test must all succeed, and only
     * then is the timer interrupt enabled; any failure halts.
     */
    method InitTimer(r: DriverReport)
      requires phase == Running
      modifies this`ops, this`phase
      ensures BringUp(r).Some? ==> phase == Halted(BringUp(r).value) && ops == old(ops)
      ensures BringUp(r).None? ==> phase == Running && ops == old(ops) + [EnableInterrupt]
    {
      var fault := BringUp(r);
      if fault.Some? {
        phase := Halted(fault.value);
        return;
      }
      ops := ops + [EnableInterrupt];
    }

    /** StartTimer: loads exactly the one-second count, then starts the countdown. */
    method StartTimer()
      modifies this`ops, this`load, this`running
      ensures ops == old(ops) + [Load(ClockTicks.OneSecondTicks(cpuClk)), Start]
      ensures load == ClockTicks.OneSecondTicks(cpuClk) && running
    {
      load := ClockTicks.OneSecondTicks(cpuClk);
      ops := ops + [Load(load)];
      running := true;
      ops := ops + [Start];
    }

    /** TimerIrqHandler: raises the flag, then re-arms the timer with the same load. */
    method TimerIrqHandler()
      requires Valid()
      modifies this`expired, this`history, this`ops, this`load, this`running
      ensures Valid()
      ensures expired && history == old(history) + [FlagChannel.Raise]
      ensures ops == old(ops) + [Load(ClockTicks.OneSecondTicks(cpuClk)), Start]
      ensures load == ClockTicks.OneSecondTicks(cpuClk) && running
    {
      FlagChannel.Extend(false, history, FlagChannel.Raise);
      expired := true;
      history := history + [FlagChannel.Raise];
      StartTimer();
    }

    /**
     * The counter reaching zero: the one-shot countdown stops and the interrupt
     * controller dispatches the handler, so the timer is counting again afterwards.
     */
    method CountdownExpires()
      requires Valid() && running
      modifies this`expired, this`history, this`ops, this`load, this`running
      ensures Valid()
      ensures running && load == ClockTicks.OneSecondTicks(cpuClk) && expired
      ensures ops == old(ops) + [Load(ClockTicks.OneSecondTicks(cpuClk)), Start]
      ensures history == old(history) + [FlagChannel.Raise]
    {
      running := false;
      TimerIrqHandler();
    }

    /** One pass of the application loop: if the flag is set, clear it, then log once. */
    method PollExpired() returns (acted: bool)
      requires Valid() && phase == Running
      modifies this`expired, this`logs, this`history
      ensures Valid()
      ensures acted == old(expired) && !expired
      ensures logs == old(logs) + (if acted then 1 else 0)
      ensures history == old(history) + [FlagChannel.Poll]
    {
      FlagChannel.Extend(false, history, FlagChannel.Poll);
      history := history + [FlagChannel.Poll];
      acted := expired;
      if expired {
        expired := false;
        logs := logs + 1;
      }
    }

    /**
     * main, up to its loop: the timer is initialised, then the interrupt controller,
     * then the first StartTimer runs; a failing bring-up halts before anything later.
     */
    method Boot(timer: DriverReport, gic: DriverReport)
      requires phase == Running && ops == [] && !running
      modifies this`ops, this`phase, this`load, this`running
      ensures phase == Running <==> BringUp(timer).None? && BringUp(gic).None?
      ensures phase == Running ==> ops == BootOps(cpuClk) && running
      ensures phase.Halted? ==> !running && Start !in ops
    {
      InitTimer(timer);
      if phase != Running {
        return;
      }
      var fault := BringUp(gic);
      if fault.Some? {
        phase := Halted(fault.value);
        return;
      }
      StartTimer();
    }
  }
}
