/**
 * The tick counts the private timer and watchdog examples derive from the CPU clock.
 * Both devices are clocked at half the CPU frequency, so one second is CPU_CLK / 2
 * ticks, and the shorter periods divide that count with C's integer division.
 * The CPU clock comes from the board's generated parameters and is a parameter here.
 */
module ClockTicks {
  import Arith

  /** TIMER_1S_VALUE / WDT_TIMER_1S_VALUE: half the CPU clock, truncated. */
  function OneSecondTicks(cpuClk: nat): (t: nat)
    ensures 2 * t <= cpuClk < 2 * t + 2
  {
    cpuClk / 2
  }

  /** The 500 ms count: a second's count halved, truncated. */
  function HalfSecondTicks(cpuClk: nat): (t: nat)
    ensures 2 * t <= OneSecondTicks(cpuClk) < 2 * t + 2
  {
    OneSecondTicks(cpuClk) / 2
  }

  /** The 250 ms count: a second's count over four, truncated. */
  function QuarterSecondTicks(cpuClk: nat): (t: nat)
    ensures 4 * t <= OneSecondTicks(cpuClk) < 4 * t + 4
  {
    OneSecondTicks(cpuClk) / 4
  }

  /** The 100 ms count: a second's count over ten, truncated. */
  function TenthSecondTicks(cpuClk: nat): (t: nat)
    ensures 10 * t <= OneSecondTicks(cpuClk) < 10 * t + 10
  {
    OneSecondTicks(cpuClk) / 10
  }

  /**
   * Read against the CPU clock itself, each count is the CPU clock divided once:
   * by 4, 8 and 20 for the 500, 250 and 100 ms periods.
   */
  lemma TicksFromCpuClock(cpuClk: nat)
    ensures HalfSecondTicks(cpuClk) == cpuClk / 4
    ensures QuarterSecondTicks(cpuClk) == cpuClk / 8
    ensures TenthSecondTicks(cpuClk) == cpuClk / 20
  {
    Arith.DivDiv(cpuClk, 2, 2);
    Arith.DivDiv(cpuClk, 2, 4);
    Arith.DivDiv(cpuClk, 2, 10);
  }

  /** The 250 ms count is the 500 ms count halved. */
  lemma QuarterIsHalfOfHalf(cpuClk: nat)
    ensures QuarterSecondTicks(cpuClk) == HalfSecondTicks(cpuClk) / 2
  {
    Arith.DivDiv(OneSecondTicks(cpuClk), 2, 2);
  }
}
