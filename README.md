# Zynq and MicroBlaze bare-metal examples, modelled in Dafny

This project models the application code of six bare-metal examples for the
Xilinx Zynq-7000 (ZedBoard) and a MicroBlaze soft core:

- the **Triple Timer Counter** example: TTC0 raises a periodic interval
  interrupt that the main loop logs, and TTC1 generates a PWM signal through
  its match register (module `Ttc`);
- the **PS DMA** example: a 128-byte ramp is copied by the DMA engine, each
  copy is compared byte for byte, and the ramp is advanced and copied again
  (module `Dma`);
- the **PS GPIO** example: four JE-header outputs are driven one-hot in turn,
  four inputs are reported, and a rising edge on JE7 is reported once
  (module `Gpio`);
- the **watchdog** example: the SCU watchdog is armed for five seconds and
  restarted once per button press (module `Watchdog`);
- the **private timer** example: a one-second countdown whose interrupt handler
  re-arms the timer, with one log line per expiry (module `PrivateTimer`);
- the **MicroBlaze DDR** example: the switch status is polled, and every change
  is sent over the UART as four ASCII digits and CR LF (module `SwitchMonitor`).

Four modules are shared:

- `Platform` holds the C integer widths, the vendor success code, and the
  fail-stop `while(1);` modelled as a terminal `Halted(fault)` phase.
  It also holds the lookup / CfgInitialize / SelfTest prologue that every
  `Init*` routine runs, as the function `BringUp`.
- `FlagChannel` models the handshake every interrupt-driven example uses.
  An interrupt handler sets a `volatile bool`; the main loop spins on it,
  clears it and acts once. A run is a history of atomic `Raise` and `Poll`
  steps, and the lemmas say what that handshake guarantees. Nothing raised
  is lost, each raise is acted on at most once, and raises that arrive before
  a poll coalesce into one action.
- `ClockTicks` holds the tick counts that the private timer and the watchdog
  derive from the CPU clock.
- `Arith` holds the facts about integer division and real products that the
  tick counts, the TTC match value and the DMA byte wrap-around rely on.

Each example's globals become a class. Its interrupt handlers and the steps of
its main loop become atomic methods on that class. The five interrupt-driven
examples keep a ghost history of flag events. A predicate ties the flag, and a
count of what the loop did, to that history:

- TTC: the logged `events`, in `Valid()`;
- private timer: the `logs`, in `Valid()`;
- DMA: the completed `cycles`, in `Cycling()`;
- GPIO: the reports that announce a JE7 edge, in `FlagConsistent()`;
- watchdog: the restarts after boot, in `Booted()`.

The MicroBlaze DDR example has no interrupt and no flag. Its main loop polls
the switches directly.

A halted example stays halted. Every main-loop step requires the `Running`
phase. Interrupt handlers do not, since an enabled interrupt can still fire
while the main program spins in `while(1);`.

Vendor driver calls whose result the example examines are parameters of the
methods. These are the configuration lookup, the status codes, the TTC
interval/prescaler solver, pin reads, the match-value read-back and the
watchdog's "expired" latch. The device calls the example makes are recorded
in an operation log.

## Model

| member | source | states |
|---|---|---|
| `Platform.BringUp` | ZynqTripleTimerCounter/SwProject/ZynqTtcMain.cpp:106-121 | the prologue passes exactly when the configuration is found and both CfgInitialize and SelfTest return success; otherwise the first failing check names the fault |
| `FlagChannel.ObservedBoundedByRaises` | ZynqWatchdogTimer/SwProject/main.cpp:167-171 | the loop never acts more often than the flag was raised, counting a still-pending flag as well |
| `FlagChannel.RaiseIsObserved` | ZynqPrivateTimer/SwProject/main.cpp:114-118 | a raise followed only by raises up to a poll makes that poll find the flag set and act: no raise is lost |
| `FlagChannel.ObservedOnce` | ZynqTripleTimerCounter/SwProject/ZynqTtcMain.cpp:236-240 | after a poll, further polls before the next raise find the flag clear and do not act again |
| `FlagChannel.Coalesce` | ZynqPsGpio/SwProject/zynqPsGpioMain.cpp:40-43 | two raises in a row leave the same flag and the same number of actions as one raise |
| `FlagChannel.ObservedCons` | ZynqPsDma/SwProject/ZynqPsDmaMain.cpp:47-51 | the flag and the action count can equally be computed by reading the history from its first step |
| `FlagChannel.ObservedIsRaiseThenPoll` | ZynqPsDma/SwProject/ZynqPsDmaMain.cpp:47-51 | the loop acts exactly once per poll that directly follows a raise, an independent count of the same runs |
| `ClockTicks.OneSecondTicks` | ZynqPrivateTimer/SwProject/main.cpp:15 | one second is half the CPU clock, truncated |
| `ClockTicks.HalfSecondTicks` | ZynqPrivateTimer/SwProject/main.cpp:16 | the 500 ms count is the one-second count halved, truncated |
| `ClockTicks.QuarterSecondTicks` | ZynqPrivateTimer/SwProject/main.cpp:17 | the 250 ms count is the one-second count over four, truncated |
| `ClockTicks.TenthSecondTicks` | ZynqPrivateTimer/SwProject/main.cpp:18 | the 100 ms count is the one-second count over ten, truncated |
| `ClockTicks.TicksFromCpuClock` | ZynqWatchdogTimer/SwProject/main.cpp:16-19 | the 500, 250 and 100 ms counts are the CPU clock divided once by 4, 8 and 20 |
| `ClockTicks.QuarterIsHalfOfHalf` | ZynqPrivateTimer/SwProject/main.cpp:16-17 | the 250 ms count is the 500 ms count halved |
| `Ttc.Trunc` | ZynqTripleTimerCounter/SwProject/ZynqTtcMain.cpp:35 | the conversion to an integer truncates toward zero: the result is within one of its argument, on the zero side |
| `Ttc.Product` | ZynqTripleTimerCounter/SwProject/ZynqTtcMain.cpp:35 | the product of interval and duty cycle is never negative for a non-negative duty cycle, and never above the interval for a duty cycle in [0, 1] |
| `Ttc.MatchValue` | ZynqTripleTimerCounter/SwProject/ZynqTtcMain.cpp:35 | the match value fits 16 bits and, for a non-negative duty cycle, is the largest integer not above interval times duty cycle |
| `Ttc.MatchWithinInterval` | ZynqTripleTimerCounter/SwProject/ZynqTtcMain.cpp:219-221 | for a duty cycle in [0, 1] the match value lies between 0 and the interval |
| `Ttc.FullDutyIsInterval` | ZynqTripleTimerCounter/SwProject/ZynqTtcMain.cpp:221 | a duty cycle of 1 gives the interval itself |
| `Ttc.MatchRederivation` | ZynqTripleTimerCounter/SwProject/ZynqTtcMain.cpp:221 | feeding m / interval back in as the duty cycle gives back the match value m |
| `Ttc.PrescaledClock` | ZynqTripleTimerCounter/SwProject/ZynqTtcMain.cpp:152 | the counter clock is the input clock divided by 2^(P+1), truncated |
| `Ttc.PrescalerStepHalves` | ZynqTripleTimerCounter/SwProject/ZynqTtcMain.cpp:149-152 | raising the prescaler by one halves the counter clock |
| `Ttc.SentinelNeverProgrammed` | ZynqTripleTimerCounter/SwProject/ZynqTtcMain.cpp:133-139 | a solver result at either failure sentinel halts, and neither the interval nor the prescaler reaches the device |
| `Ttc.CntrSetup.constructor` | ZynqTripleTimerCounter/SwProject/ZynqTtcMain.cpp:20-25 | every setting starts at zero |
| `Ttc.PwmSetup.constructor` | ZynqTripleTimerCounter/SwProject/ZynqTtcMain.cpp:27-28 | every setting, the match value included, starts at zero |
| `Ttc.PwmSetup.CalcSetMatchValue` | ZynqTripleTimerCounter/SwProject/ZynqTtcMain.cpp:30-36 | a zero interval never returns and changes nothing; otherwise only the match value changes, to the truncated product |
| `Ttc.TtcApp.constructor` | ZynqTripleTimerCounter/SwProject/ZynqTtcMain.cpp:40-47 | both setups zero, no device call made, the flag clear |
| `Ttc.TtcApp.InitTimerTtc0` | ZynqTripleTimerCounter/SwProject/ZynqTtcMain.cpp:102-144 | checks run in source order and the first failure halts; on success options, interval and prescaler are programmed, then all interrupts are disabled and only the interval interrupt is enabled |
| `Ttc.TtcApp.InitTimerTtc1` | ZynqTripleTimerCounter/SwProject/ZynqTtcMain.cpp:159-208 | as for TTC0 without interrupts, then the 0.63 match value; a zero interval or a zero match value halts before the match register is written, and a differing read-back halts after; each setup field changes only once its step is reached, and a halt before the match step leaves the match value as it was |
| `Ttc.TtcApp.IntervalElapses` | ZynqTripleTimerCounter/SwProject/ZynqTtcMain.cpp:55-57 | once TTC0 is started, an elapsed interval sets the interval bit that the handler tests, and no other status bit changes |
| `Ttc.TtcApp.TimerIrqHandler` | ZynqTripleTimerCounter/SwProject/ZynqTtcMain.cpp:49-63 | only the TTC0 instance with the interval bit pending has its bit cleared and the flag raised; anything else changes nothing |
| `Ttc.TtcApp.PollExpired` | ZynqTripleTimerCounter/SwProject/ZynqTtcMain.cpp:236-244 | a set flag is cleared and exactly one event is logged; a clear flag logs nothing |
| `Ttc.TtcApp.Boot` | ZynqTripleTimerCounter/SwProject/ZynqTtcMain.cpp:224-233 | the example runs exactly when both timer initialisations pass, the interval and the 0.63 match value are non-zero, the match register reads back that value and the interrupt controller comes up; it then holds that match value, each timer receives its full call sequence ending in Start, and 0 < match value <= interval; a halted boot starts neither timer |
| `PrivateTimer.TimerApp.constructor` | ZynqPrivateTimer/SwProject/main.cpp:20-25 | no device call made, the flag clear, nothing logged |
| `PrivateTimer.TimerApp.InitTimer` | ZynqPrivateTimer/SwProject/main.cpp:80-103 | a failing prologue halts without enabling the interrupt; otherwise the interrupt is enabled |
| `PrivateTimer.TimerApp.StartTimer` | ZynqPrivateTimer/SwProject/main.cpp:27-34 | the one-second count is loaded, then the countdown is started |
| `PrivateTimer.TimerApp.TimerIrqHandler` | ZynqPrivateTimer/SwProject/main.cpp:36-43 | the flag is raised, then the timer is re-armed with the same one-second load |
| `PrivateTimer.TimerApp.CountdownExpires` | ZynqPrivateTimer/SwProject/main.cpp:27-43 | an expiry of the running countdown leaves the flag raised and the timer counting again from one second |
| `PrivateTimer.TimerApp.PollExpired` | ZynqPrivateTimer/SwProject/main.cpp:114-121 | a set flag is cleared and exactly one line is logged; a clear flag logs nothing |
| `PrivateTimer.TimerApp.Boot` | ZynqPrivateTimer/SwProject/main.cpp:105-111 | the boot runs when both bring-ups pass, and then the calls are enable, one-second load, start; a halted boot never starts the timer |
| `Watchdog.QueriedOnceBeforeRestarts` | ZynqWatchdogTimer/SwProject/main.cpp:152-177 | in a supervised run the expiry latch is queried exactly once, and every restart comes after it |
| `Watchdog.WatchdogApp.constructor` | ZynqWatchdogTimer/SwProject/main.cpp:32-38 | no device call made, the button flag clear |
| `Watchdog.ButtonSetupOrder` | ZynqWatchdogTimer/SwProject/main.cpp:71-81 | the button set-up touches BTN8 alone, makes it an input, and enables its interrupt last, after the rising-edge trigger and the handler |
| `Watchdog.WatchdogApp.InitGpio` | ZynqWatchdogTimer/SwProject/main.cpp:51-82 | a failing prologue halts with no GPIO call; otherwise BTN8 is made an input, set to interrupt on its rising edge, given the handler and enabled, in that order |
| `Watchdog.WatchdogApp.InitWatchdog` | ZynqWatchdogTimer/SwProject/main.cpp:122-150 | a failing prologue halts before any watchdog call; otherwise watchdog mode, a load of five one-second counts and the start are issued in that order |
| `Watchdog.WatchdogApp.GpioIrqHandler` | ZynqWatchdogTimer/SwProject/main.cpp:40-44 | the flag is raised only when BTN8 reads HIGH; any other reading changes nothing; a booted run stays booted |
| `Watchdog.WatchdogApp.WatchdogIrqHandler` | ZynqWatchdogTimer/SwProject/main.cpp:46-49 | one line is printed and nothing else changes |
| `Watchdog.WatchdogApp.ReportBootCause` | ZynqWatchdogTimer/SwProject/main.cpp:159-164 | the latch is queried once, and the message printed depends only on whether the watchdog had expired |
| `Watchdog.WatchdogApp.Boot` | ZynqWatchdogTimer/SwProject/main.cpp:152-164 | the boot runs when all three bring-ups pass, and then the run is supervised with no restart yet; the button is set up exactly when the watchdog and GPIO bring-ups pass; a halted boot never queries or restarts the watchdog |
| `Watchdog.WatchdogApp.PollButton` | ZynqWatchdogTimer/SwProject/main.cpp:167-177 | a set flag is cleared and causes exactly one restart and one message; a clear flag causes none; the run stays supervised |
| `Watchdog.RestartsBoundedByPresses` | ZynqWatchdogTimer/SwProject/main.cpp:167-174 | there is never a restart without a press: restarts plus a pending flag never exceed the raises of the button flag |
| `Dma.TransferDetermined` | ZynqPsDma/SwProject/ZynqPsDmaMain.cpp:107-131 | a command built from a zeroed command with the nine assigned fields is fully determined by source, destination and size |
| `Dma.PatternZeroIsRamp` | ZynqPsDma/SwProject/ZynqPsDmaMain.cpp:37 | the initial source pattern holds byte i at index i |
| `Dma.IncrementAdvancesPattern` | ZynqPsDma/SwProject/ZynqPsDmaMain.cpp:58 | one re-adjust step turns the pattern of cycle k into the pattern of cycle k + 1 |
| `Dma.PatternPeriodic` | ZynqPsDma/SwProject/ZynqPsDmaMain.cpp:58 | with 8-bit wrap-around the source contents repeat every 256 cycles |
| `Dma.FillRamp` | ZynqPsDma/SwProject/ZynqPsDmaMain.cpp:37 | the intended fill leaves the ramp 0, 1, ..., 127 in the source buffer |
| `Dma.FillAsWritten` | ZynqPsDma/SwProject/ZynqPsDmaMain.cpp:37 | the fill as written stores the old index one byte further on: byte 0 keeps its value and byte i gets i - 1 for i in 1..128 |
| `Dma.AsWrittenMissesRamp` | ZynqPsDma/SwProject/ZynqPsDmaMain.cpp:37 | what the as-written fill leaves is not the ramp, and its last store lands on the byte after the buffer |
| `Dma.IncrementAll` | ZynqPsDma/SwProject/ZynqPsDmaMain.cpp:58 | every source byte goes up by one modulo 256 |
| `Dma.DmaApp.constructor` | ZynqPsDma/SwProject/ZynqPsDmaMain.cpp:18-22 | both buffers start zeroed, the done flag clear, nothing launched |
| `Dma.DmaApp.InitDma` | ZynqPsDma/SwProject/ZynqPsDmaMain.cpp:76-105 | the prologue, then binding the done handler, then the fault handler; the first failure halts, and the engine is ready exactly when all succeed |
| `Dma.DmaApp.StartDma` | ZynqPsDma/SwProject/ZynqPsDmaMain.cpp:107-136 | exactly one command is handed to the engine, with the burst shape and the transfer set and every other field zero; a refused start halts |
| `Dma.DmaApp.DmaDoneHandler` | ZynqPsDma/SwProject/ZynqPsDmaMain.cpp:65-68 | the done flag is raised and nothing else changes |
| `Dma.DmaApp.DmaFaultHandler` | ZynqPsDma/SwProject/ZynqPsDmaMain.cpp:70-74 | a fault stalls the application |
| `Dma.DmaApp.TransferCompletes` | ZynqPsDma/SwProject/ZynqPsDmaMain.cpp:44-51 | a completed transfer leaves the destination equal to the source and the done flag raised, and keeps the steady state |
| `Dma.DmaApp.CheckAndRelaunch` | ZynqPsDma/SwProject/ZynqPsDmaMain.cpp:53-61 | a mismatch halts and changes nothing else; equal buffers advance the source by one step and relaunch the same transfer, and a refused relaunch halts with no transfer in flight added |
| `Dma.DmaApp.PollDone` | ZynqPsDma/SwProject/ZynqPsDmaMain.cpp:47-62 | a set flag is cleared and the loop body runs once; it halts on a mismatch exactly when the buffers differ, and in the steady state it never does |
| `Dma.DmaApp.Boot` | ZynqPsDma/SwProject/ZynqPsDmaMain.cpp:31-44 | the source holds the ramp; one command reaches the engine exactly when every bring-up passes; the example runs exactly when, in addition, that first start succeeds, and is then in the steady state with a transfer in flight |
| `Dma.DmaApp.RunCycles` | ZynqPsDma/SwProject/ZynqPsDmaMain.cpp:47-62 | with every start accepted, n rounds never halt and leave the source holding the pattern of n more cycles |
| `Gpio.PinsDistinct` | ZynqPsGpio/SwProject/zynqPsGpioMain.cpp:15-22 | the eight JE header pins are eight different MIO pins |
| `Gpio.ConfigDrivesOutputs` | ZynqPsGpio/SwProject/zynqPsGpioMain.cpp:100-111 | exactly JE1..JE4 are made outputs with their drivers enabled |
| `Gpio.ConfigDirections` | ZynqPsGpio/SwProject/zynqPsGpioMain.cpp:100-117 | a pin is configured as an output exactly when it is one of JE1..JE4, and JE7..JE10 are inputs |
| `Gpio.ConfigInterruptsOnJe7` | ZynqPsGpio/SwProject/zynqPsGpioMain.cpp:119-126 | JE7, on its rising edge, is the only pin set up to interrupt |
| `Gpio.UpdateIsOneHot` | ZynqPsGpio/SwProject/zynqPsGpioMain.cpp:129-158 | whatever the pins held, output JEk ends HIGH exactly when k is the value, all four LOW for a value outside 1..4, and no other pin changes |
| `Gpio.UpdateWritesOnlyOutputs` | ZynqPsGpio/SwProject/zynqPsGpioMain.cpp:129-158 | UpdateOutput writes only output pins, never an input |
| `Gpio.SweepRaisesInTurn` | ZynqPsGpio/SwProject/zynqPsGpioMain.cpp:209-213 | one sweep drives JE1, JE2, JE3, JE4 HIGH, each once, in that order |
| `Gpio.GpioApp.constructor` | ZynqPsGpio/SwProject/zynqPsGpioMain.cpp:33-38 | the pins hold their boot levels, nothing written, the flag clear |
| `Gpio.GpioApp.WritePin` | ZynqPsGpio/SwProject/zynqPsGpioMain.cpp:132 | one write is logged and the pin levels remain the replay of the log |
| `Gpio.GpioApp.UpdateOutput` | ZynqPsGpio/SwProject/zynqPsGpioMain.cpp:129-158 | the four LOW writes, then at most one HIGH write; the outputs end one-hot or all LOW and no other pin changes |
| `Gpio.GpioApp.DriveSelected` | ZynqPsGpio/SwProject/zynqPsGpioMain.cpp:137-157 | a value in 1..4 drives its own pin HIGH; any other value writes nothing |
| `Gpio.GpioApp.GpioIrqHandler` | ZynqPsGpio/SwProject/zynqPsGpioMain.cpp:40-43 | the flag is raised and nothing else changes |
| `Gpio.GpioApp.LogInput` | ZynqPsGpio/SwProject/zynqPsGpioMain.cpp:160-197 | the report holds the four input levels and says whether the flag was set; the flag ends clear, and the edge reports still number the polls that found the flag set |
| `Gpio.GpioApp.SweepOutputs` | ZynqPsGpio/SwProject/zynqPsGpioMain.cpp:209-213 | the for loop makes the writes of UpdateOutput(1) to UpdateOutput(4) in turn, ending with JE4 alone HIGH and no other pin changed |
| `Gpio.GpioApp.MainIteration` | ZynqPsGpio/SwProject/zynqPsGpioMain.cpp:206-217 | one pass is a full sweep then one report, after which the flag is clear |
| `Gpio.GpioApp.InitGpio` | ZynqPsGpio/SwProject/zynqPsGpioMain.cpp:80-127 | a failing prologue halts with no pin configured; otherwise the full pin configuration is applied |
| `Gpio.EdgesBoundedByInterrupts` | ZynqPsGpio/SwProject/zynqPsGpioMain.cpp:40-43 | no edge is reported without an interrupt: reported edges plus a pending flag never exceed the handler's runs |
| `Gpio.GpioApp.Boot` | ZynqPsGpio/SwProject/zynqPsGpioMain.cpp:199-203 | the boot runs when both bring-ups pass; the GPIO is configured whenever its own bring-up passes |
| `SwitchMonitor.Message` | MicroblazeDDR/SwProject/main.cpp:29 | every frame is six bytes and ends in CR LF |
| `SwitchMonitor.MessageDigits` | MicroblazeDDR/SwProject/main.cpp:42-43 | each of the four digits is ASCII '0' or '1', and is '1' exactly when its switch bit is set |
| `SwitchMonitor.MessageRoundTrip` | MicroblazeDDR/SwProject/main.cpp:42-43 | decoding a frame gives back the low four switch bits |
| `SwitchMonitor.MessageSameIffLowBits` | MicroblazeDDR/SwProject/main.cpp:36-45 | two statuses give the same frame exactly when their low four bits agree |
| `SwitchMonitor.SendsAreFrames` | MicroblazeDDR/SwProject/main.cpp:31-47 | every frame sent is six bytes ending in CR LF, and there is at most one frame per poll |
| `SwitchMonitor.SteadyStatusSentOnce` | MicroblazeDDR/SwProject/main.cpp:33-46 | a status that does not change is sent at most once: only if it differs from the previous one |
| `SwitchMonitor.HighBitsChangeResends` | MicroblazeDDR/SwProject/main.cpp:28-38 | a change confined to switches 4..7 still causes a send, of the same frame as before |
| `SwitchMonitor.Monitor.constructor` | MicroblazeDDR/SwProject/main.cpp:27-29 | the buffer is 0, 0, 0, 0, CR, LF and nothing has been sent |
| `SwitchMonitor.Monitor.Init` | MicroblazeDDR/SwProject/main.cpp:20-25 | the UART is brought up before the GPIO, either failure halts, and the example runs exactly when both succeed |
| `SwitchMonitor.Monitor.Poll` | MicroblazeDDR/SwProject/main.cpp:33-46 | a frame is sent exactly when the new byte differs from the previous one, and the frame sent is that of the new status |
| `SwitchMonitor.Monitor.RunPolls` | MicroblazeDDR/SwProject/main.cpp:31-47 | a run over a sequence of switch readings sends exactly the frames of the change-detecting reference `Sends` |

## Left out

- The vendor drivers (XScuGic, XTtcPs, XDmaPs, XGpioPs, XScuWdt, XScuTimer,
  XUartLite, XGpio) are not part of this model. Each result that the examples
  examine is a method parameter. The device calls are recorded as an
  operation log, not executed.
- The `InitGic` routines are reduced to their prologue, through `BringUp`. The
  exception-table and `XScuGic_Connect`/`Enable` calls return nothing that the
  examples examine, so they are not recorded.
- Ttc.MatchValue: it computes `float(interval) * dutyCycle` exactly, over
  the reals, where the program multiplies in single precision. For the
  duty cycle 0.63 that the program uses, both give the same match value on
  every 16-bit interval. The single-precision 0.63 is low by less than
  1e-8 relative. Where 0.63 times the interval is a whole number, that
  error is below half a unit in the last place and rounds away. Elsewhere
  the product is at least 0.01 from the next whole number, far more than
  the rounding error. For other duty cycles, float rounding can make the
  program's value differ from the model's by one in either direction.
  This agreement is argued here, not proved in the model.
- The xttcps.h option and interrupt-mask values are given the values of the
  vendor header. That header is not part of this model.
- Ttc.TtcApp.InitTimerTtc1 and Ttc.TtcApp.Boot take the interval and
  prescaler that `XTtcPs_CalcIntervalFromFreq` chooses as inputs.
  The solver itself is not modelled, so no contract says the chosen values
  produce the requested frequency.
- Dma.DmaApp.TransferCompletes: the DMA engine, its generated microcode and
  burst timing are not modelled. A completed transfer is assumed to copy the
  source buffer into the destination, which is what the example relies on.
- `memcmp` is modelled as sequence equality over the 128 bytes.
- Dma.FillAsWritten follows C++17 sequencing, where the right operand of `=`
  is evaluated first. Under earlier standards line 37 of the DMA example is
  undefined behaviour, and no single result can be modelled.
- The write past the end of the source buffer lands in whatever memory
  follows it. Its effect on other globals is not modelled.
- `Xil_DCacheDisable`, `usleep` and the 250 ms delay of the GPIO sweep,
  `printf` text, and the exact timing of interrupts are left out.
  Log lines are modelled as entries of a console sequence, or as a count.
- Interrupt preemption inside a main-loop step and the `volatile` semantics of
  the flags are left out. Every handler and loop step is one atomic method,
  and the `FlagChannel` lemmas reason about interleavings of those steps.
- Watchdog.WatchdogApp.constructor and Watchdog.ArmOps require that five
  one-second counts, 5 * (CPU clock / 2), fit the 32-bit load register. The
  program computes that load with plain C integer arithmetic and no check.
  The board's clock meets the bound, so no wrap-around of the load is
  modelled.
- Watchdog expiry and the hardware reset it causes are left out. The latch
  read at boot is a parameter, and the model does not say when the
  five-second load runs out.
- SwitchMonitor.Monitor.constructor: `prevSwStatus` is read before it is
  ever assigned. The model takes its first value as a parameter, so whether
  the first reading is sent depends on that parameter.
- The private timer's countdown and the TTC counters are not modelled as
  clocks. An expiry is the event `CountdownExpires` (private timer), or an
  interval bit set in the TTC0 status register.
- The SharedBram and ZedboardXadc examples are not part of this model.

## Findings

| source | as written | input that shows it | evidently intended | confidence | as-written member | corrected member |
|---|---|---|---|---|---|---|
| ZynqPsDma/SwProject/ZynqPsDmaMain.cpp:37 | `sourceBuffer[idx] = idx++` evaluates `idx++` first (C++17), so each pass stores the old index one byte further on | any run of the fill: byte 1 receives 0, byte 0 is never written, and the final pass writes 127 to the byte just past the 128-byte buffer | byte idx receives idx, giving the ramp 0, 1, ..., 127 inside the buffer | high, by reading the C++17 sequencing rule; not executed | `Dma.FillAsWritten`, `Dma.AsWrittenMissesRamp` | `Dma.FillRamp` |
