/**
 * The PS GPIO example on the ZedBoard JE header: four output pins are driven one-hot
 * in turn, four input pins are read and reported, and a rising edge on JE7 raises an
 * interrupt flag that the report consumes.
 *
 * The output side is a log of pin writes; the level of each pin is the replay of
 * that log, so the state of the pins never disagrees with what was written.
 */
module Gpio {
  import opened Platform
  import FlagChannel

  /** MIO pin numbers of the JE header. */
  const PIN_JE1: nat := 13
  const PIN_JE2: nat := 10
  const PIN_JE3: nat := 11
  const PIN_JE4: nat := 12
  const PIN_JE7: nat := 0
  const PIN_JE8: nat := 9
  const PIN_JE9: nat := 14
  const PIN_JE10: nat := 15

  const HIGH: int := 1
  const LOW: int := 0

  const OUTPUT_PINS: seq<nat> := [PIN_JE1, PIN_JE2, PIN_JE3, PIN_JE4]
  const INPUT_PINS: seq<nat> := [PIN_JE7, PIN_JE8, PIN_JE9, PIN_JE10]

  /** The output pin that UpdateOutput(k) drives HIGH, for k in 1..4. */
  function OutputPin(k: int): nat
    requires 1 <= k <= 4
  {
    OUTPUT_PINS[k - 1]
  }

  /** The eight header pins are eight different MIO pins. */
  lemma PinsDistinct()
    ensures forall i, j | 0 <= i < j < 8 :: (OUTPUT_PINS + INPUT_PINS)[i] != (OUTPUT_PINS + INPUT_PINS)[j]
  {
  }

  datatype PinWrite = PinWrite(pin: nat, level: int)

  /** The configuration calls InitGpio makes after its checks. */
  datatype ConfigOp =
    | SetDirection(pin: nat, output: bool)
    | SetOutputEnable(pin: nat, enable: bool)
    | SetRisingEdgeIrq(pin: nat)
    | BindCallback
    | EnableIrq(pin: nat)

  /** What one LogInput reports: the four input levels and whether a JE7 edge was seen. */
  datatype Report = Report(je7: bool, je8: bool, je9: bool, je10: bool, risingEdge: bool)

  /** The number of reports that announce a JE7 rising edge. */
  function Edges(rs: seq<Report>): nat
  {
    if rs == [] then 0 else Edges(rs[..|rs| - 1]) + (if rs[|rs| - 1].risingEdge then 1 else 0)
  }

  lemma EdgesAppend(rs: seq<Report>, r: Report)
    ensures Edges(rs + [r]) == Edges(rs) + (if r.risingEdge then 1 else 0)
  {
    assert (rs + [r])[..|rs|] == rs;
  }

  /** InitGpio's configuration: JE1..JE4 driven outputs, JE7..JE10 inputs, JE7 interrupting. */
  function ConfigOps(): seq<ConfigOp>
  {
    [ SetDirection(PIN_JE1, true), SetOutputEnable(PIN_JE1, true)
    , SetDirection(PIN_JE2, true), SetOutputEnable(PIN_JE2, true)
    , SetDirection(PIN_JE3, true), SetOutputEnable(PIN_JE3, true)
    , SetDirection(PIN_JE4, true), SetOutputEnable(PIN_JE4, true)
    , SetDirection(PIN_JE7, false), SetDirection(PIN_JE8, false)
    , SetDirection(PIN_JE9, false), SetDirection(PIN_JE10, false)
    , SetRisingEdgeIrq(PIN_JE7), BindCallback, EnableIrq(PIN_JE7) ]
  }

  /** The configuration drives exactly the four output pins. */
  lemma ConfigDrivesOutputs()
    ensures forall op <- ConfigOps() :: op.SetOutputEnable? ==> op.pin in OUTPUT_PINS && op.enable
    ensures forall p <- OUTPUT_PINS :: SetDirection(p, true) in ConfigOps() && SetOutputEnable(p, true) in ConfigOps()
  {
  }

  /** A pin is configured as an output exactly when it is one of JE1..JE4; JE7..JE10 are inputs. */
  lemma ConfigDirections()
    ensures forall op <- ConfigOps() :: op.SetDirection? ==> (op.output <==> op.pin in OUTPUT_PINS)
    ensures forall p <- INPUT_PINS :: SetDirection(p, false) in ConfigOps()
  {
  }

  /** JE7, on its rising edge, is the only pin that can interrupt. */
  lemma ConfigInterruptsOnJe7()
    ensures forall op <- ConfigOps() :: op.SetRisingEdgeIrq? || op.EnableIrq? ==> op.pin == PIN_JE7
    ensures SetRisingEdgeIrq(PIN_JE7) in ConfigOps() && EnableIrq(PIN_JE7) in ConfigOps()
  {
  }

  /** The pin levels after replaying writes `ws` on top of `levels`. */
  function Replay(levels: map<nat, int>, ws: seq<PinWrite>): map<nat, int>
  {
    if ws == [] then levels
    else
      var w := ws[|ws| - 1];
      Replay(levels, ws[..|ws| - 1])[w.pin := w.level]
  }

  lemma ReplayAppend(levels: map<nat, int>, ws: seq<PinWrite>, w: PinWrite)
    ensures Replay(levels, ws + [w]) == Replay(levels, ws)[w.pin := w.level]
  {
    assert (ws + [w])[..|ws|] == ws;
  }

  /** The writes of one UpdateOutput(value): all four outputs LOW, then at most one HIGH. */
  function UpdateWrites(value: u8): seq<PinWrite>
  {
    [PinWrite(PIN_JE1, LOW), PinWrite(PIN_JE2, LOW), PinWrite(PIN_JE3, LOW), PinWrite(PIN_JE4, LOW)]
    + (if 1 <= value <= 4 then [PinWrite(OutputPin(value), HIGH)] else [])
  }

  /** Output JEk is HIGH exactly when k == value; all four are LOW for a value outside 1..4. */
  ghost predicate OneHot(levels: map<nat, int>, value: int)
  {
    forall k | 1 <= k <= 4 :: OutputPin(k) in levels && levels[OutputPin(k)] == (if k == value then HIGH else LOW)
  }

  /** Pins other than JE1..JE4 are as in `before`. */
  ghost predicate OthersKept(before: map<nat, int>, after: map<nat, int>)
  {
    forall p | p !in OUTPUT_PINS :: (p in after <==> p in before) && (p in before ==> after[p] == before[p])
  }

  /**
   * Whatever the pins held before, UpdateOutput(value) leaves output JEk HIGH exactly
   * when k == value, every output LOW for a value outside 1..4, and every other pin as
   * it was.
   */
  lemma UpdateIsOneHot(levels: map<nat, int>, value: u8)
    ensures OneHot(Replay(levels, UpdateWrites(value)), value)
    ensures OthersKept(levels, Replay(levels, UpdateWrites(value)))
  {
    var lows := [PinWrite(PIN_JE1, LOW), PinWrite(PIN_JE2, LOW), PinWrite(PIN_JE3, LOW), PinWrite(PIN_JE4, LOW)];
    ReplayAppend(levels, [], lows[0]);
    ReplayAppend(levels, lows[..1], lows[1]);
    assert lows[..1] + [lows[1]] == lows[..2];
    ReplayAppend(levels, lows[..2], lows[2]);
    assert lows[..2] + [lows[2]] == lows[..3];
    ReplayAppend(levels, lows[..3], lows[3]);
    assert lows[..3] + [lows[3]] == lows;
    if 1 <= value <= 4 {
      ReplayAppend(levels, lows, PinWrite(OutputPin(value), HIGH));
    } else {
      assert UpdateWrites(value) == lows;
    }
  }

  /** UpdateOutput never writes an input pin. */
  lemma UpdateWritesOnlyOutputs(value: u8)
    ensures forall w <- UpdateWrites(value) :: w.pin in OUTPUT_PINS && w.pin !in INPUT_PINS
  {
  }

  /** The writes of the first `n` calls UpdateOutput(1), ..., UpdateOutput(n) of one sweep. */
  function Sweep(n: nat): seq<PinWrite>
    requires n <= 4
  {
    if n == 0 then [] else Sweep(n - 1) + UpdateWrites(n)
  }

  /** The pins written HIGH by `ws`, in order. */
  function HighPins(ws: seq<PinWrite>): seq<nat>
  {
    if ws == [] then []
    else HighPins(ws[..|ws| - 1]) + (if ws[|ws| - 1].level == HIGH then [ws[|ws| - 1].pin] else [])
  }

  lemma {:induction false} HighPinsConcat(a: seq<PinWrite>, b: seq<PinWrite>)
    ensures HighPins(a + b) == HighPins(a) + HighPins(b)
    decreases |b|
  {
    if b == [] {
      assert a + b == a;
    } else {
      var front := b[..|b| - 1];
      HighPinsConcat(a, front);
      assert (a + b)[..|a + b| - 1] == a + front;
      assert b[..|b| - 1] == front;
    }
  }

  lemma {:induction false} HighPinsAllLow(ws: seq<PinWrite>)
    requires forall w <- ws :: w.level == LOW
    ensures HighPins(ws) == []
    decreases |ws|
  {
    if ws != [] {
      HighPinsAllLow(ws[..|ws| - 1]);
    }
  }

  /** One sweep raises JE1, JE2, JE3, JE4, each exactly once and in that order. */
  lemma {:induction false} SweepRaisesInTurn(n: nat)
    requires n <= 4
    ensures HighPins(Sweep(n)) == OUTPUT_PINS[..n]
  {
    if n > 0 {
      SweepRaisesInTurn(n - 1);
      HighPinsConcat(Sweep(n - 1), UpdateWrites(n));
      var lows := [PinWrite(PIN_JE1, LOW), PinWrite(PIN_JE2, LOW), PinWrite(PIN_JE3, LOW), PinWrite(PIN_JE4, LOW)];
      HighPinsConcat(lows, [PinWrite(OutputPin(n), HIGH)]);
      HighPinsAllLow(lows);
      assert HighPins([PinWrite(OutputPin(n), HIGH)]) == [OutputPin(n)];
      assert OUTPUT_PINS[..n] == OUTPUT_PINS[..n - 1] + [OutputPin(n)];
    }
  }

  class GpioApp {
    /** The pin levels before the program wrote any pin. */
    ghost const boot: map<nat, int>
    var writes: seq<PinWrite>
    var levels: map<nat, int>
    var config: seq<ConfigOp>
    var irqFlag: bool
    var reports: seq<Report>
    var phase: Phase
    ghost var history: seq<FlagChannel.Event>

    /** The pins hold the replay of the write log; the flag follows its history. */
    ghost predicate Valid()
      reads this
    {
      PinsConsistent() && FlagConsistent()
    }

    /** The pins hold the replay of the write log. */
    ghost predicate PinsConsistent()
      reads this`levels, this`writes
    {
      levels == Replay(boot, writes)
    }

    /**
     * The flag follows its history, every poll of it produced one report, and the
     * reports announce an edge exactly as often as a poll found the flag set.
     */
    ghost predicate FlagConsistent()
      reads this`irqFlag, this`history, this`reports
    {
      && irqFlag == FlagChannel.FlagAfter(false, history)
      && |reports| == |history| - FlagChannel.Raises(history)
      && Edges(reports) == FlagChannel.Observed(false, history)
    }

    constructor (boot: map<nat, int>)
      ensures Valid() && this.boot == boot
      ensures writes == [] && levels == boot && config == [] && !irqFlag && reports == []
      ensures phase == Running && history == []
    {
      this.boot := boot;
      writes, levels, config := [], boot, [];
      irqFlag, reports, phase := false, [], Running;
      history := [];
    }

    /** XGpioPs_WritePin: one pin takes one level. */
    method WritePin(pin: nat, level: int)
      requires PinsConsistent() && phase == Running
      modifies this`writes, this`levels
      ensures PinsConsistent()
      ensures writes == old(writes) + [PinWrite(pin, level)]
    {
      ReplayAppend(boot, writes, PinWrite(pin, level));
      writes := writes + [PinWrite(pin, level)];
      levels := levels[pin := level];
    }

    /**
     * UpdateOutput: JE1..JE4 are driven LOW, then JEvalue is driven HIGH when value is
     * 1..4; the outputs end one-hot (or all LOW) and no other pin changes.
     */
    method UpdateOutput(value: u8)
      requires PinsConsistent() && phase == Running
      modifies this`writes, this`levels
      ensures PinsConsistent()
      ensures writes == old(writes) + UpdateWrites(value)
      ensures OneHot(levels, value) && OthersKept(old(levels), levels)
    {
      WritePin(PIN_JE1, LOW);
      WritePin(PIN_JE2, LOW);
      WritePin(PIN_JE3, LOW);
      WritePin(PIN_JE4, LOW);
      assert writes == old(writes) + UpdateWrites(value)[..4];
      DriveSelected(value);
      UpdateIsOneHot(old(levels), value);
      ReplayConcat(boot, old(writes), UpdateWrites(value));
    }

    /** The switch of UpdateOutput: JEvalue goes HIGH for a value in 1..4, nothing otherwise. */
    method DriveSelected(value: u8)
      requires PinsConsistent() && phase == Running
      modifies this`writes, this`levels
      ensures PinsConsistent()
      ensures writes == old(writes) + (if 1 <= value <= 4 then [PinWrite(OutputPin(value), HIGH)] else [])
    {
      if value == 1 {
        WritePin(PIN_JE1, HIGH);
      } else if value == 2 {
        WritePin(PIN_JE2, HIGH);
      } else if value == 3 {
        WritePin(PIN_JE3, HIGH);
      } else if value == 4 {
        WritePin(PIN_JE4, HIGH);
      }
    }

    /** GpioIrqHandler: sets the flag and nothing else. */
    method GpioIrqHandler()
      requires Valid()
      modifies this`irqFlag, this`history
      ensures Valid()
      ensures irqFlag && history == old(history) + [FlagChannel.Raise]
    {
      FlagChannel.Extend(false, history, FlagChannel.Raise);
      irqFlag := true;
      history := history + [FlagChannel.Raise];
    }

    /**
     * LogInput: reports the four input levels and, when the flag is set, clears it and
     * reports the JE7 edge.
     */
    method LogInput(je7: bool, je8: bool, je9: bool, je10: bool) returns (report: Report)
      requires Valid() && phase == Running
      modifies this`irqFlag, this`history, this`reports
      ensures Valid()
      ensures report == Report(je7, je8, je9, je10, old(irqFlag))
      ensures !irqFlag && reports == old(reports) + [report]
      ensures history == old(history) + [FlagChannel.Poll]
    {
      FlagChannel.Extend(false, history, FlagChannel.Poll);
      history := history + [FlagChannel.Poll];
      var edge := false;
      if irqFlag {
        irqFlag := false;
        edge := true;
      }
      report := Report(je7, je8, je9, je10, edge);
      EdgesAppend(reports, report);
      reports := reports + [report];
    }

    /** The for loop of main: UpdateOutput(1), ..., UpdateOutput(4) in turn. */
    method SweepOutputs()
      requires PinsConsistent() && phase == Running
      modifies this`writes, this`levels
      ensures PinsConsistent()
      ensures writes == old(writes) + Sweep(4)
      ensures OneHot(levels, 4) && OthersKept(old(levels), levels)
    {
      for i := 1 to 5
        invariant PinsConsistent()
        invariant writes == old(writes) + Sweep(i - 1)
        invariant i > 1 ==> OneHot(levels, i - 1)
        invariant OthersKept(old(levels), levels)
      {
        UpdateOutput(i);
        ConcatAssoc(old(writes), Sweep(i - 1), UpdateWrites(i));
      }
    }

    /**
     * One pass of the application loop: the output sweep, then one LogInput. The pass
     * ends with JE4 alone HIGH.
     */
    method MainIteration(je7: bool, je8: bool, je9: bool, je10: bool) returns (report: Report)
      requires Valid() && phase == Running
      modifies this`writes, this`levels, this`irqFlag, this`history, this`reports
      ensures Valid()
      ensures writes == old(writes) + Sweep(4)
      ensures OneHot(levels, 4)
      ensures report == Report(je7, je8, je9, je10, old(irqFlag)) && !irqFlag
      ensures reports == old(reports) + [report]
    {
      SweepOutputs();
      report := LogInput(je7, je8, je9, je10);
    }

    /** InitGpio: the bring-up checks, then the pin configuration; a failing check halts. */
    method InitGpio(r: DriverReport)
      requires phase == Running
      modifies this`config, this`phase
      ensures BringUp(r).Some? ==> phase == Halted(BringUp(r).value) && config == old(config)
      ensures BringUp(r).None? ==> phase == Running && config == old(config) + ConfigOps()
    {
      var fault := BringUp(r);
      if fault.Some? {
        phase := Halted(fault.value);
        return;
      }
      config := config + ConfigOps();
    }

    /** main up to its loop: the GPIO first, then the interrupt controller. */
    method Boot(gpio: DriverReport, gic: DriverReport)
      requires phase == Running && config == []
      modifies this`config, this`phase
      ensures phase == Running <==> BringUp(gpio).None? && BringUp(gic).None?
      ensures BringUp(gpio).None? ==> config == ConfigOps()
      ensures BringUp(gpio).Some? ==> phase == Halted(BringUp(gpio).value) && config == []
    {
      InitGpio(gpio);
      if phase != Running {
        return;
      }
      var fault := BringUp(gic);
      if fault.Some? {
        phase := Halted(fault.value);
      }
    }
  }

  lemma ConcatAssoc<T>(a: seq<T>, b: seq<T>, c: seq<T>)
    ensures a + b + c == a + (b + c)
  {
  }

  lemma {:induction false} ReplayConcat(levels: map<nat, int>, a: seq<PinWrite>, b: seq<PinWrite>)
    ensures Replay(levels, a + b) == Replay(Replay(levels, a), b)
    decreases |b|
  {
    if b == [] {
      assert a + b == a;
    } else {
      var front := b[..|b| - 1];
      ReplayConcat(levels, a, front);
      assert (a + b)[..|a + b| - 1] == a + front;
    }
  }

  /**
   * No edge is reported without an interrupt: the reported edges, plus one still
   * pending in the flag, never outnumber the handler's runs.
   */
  lemma EdgesBoundedByInterrupts(app: GpioApp)
    requires app.Valid()
    ensures Edges(app.reports) + (if app.irqFlag then 1 else 0) <= FlagChannel.Raises(app.history)
  {
    FlagChannel.ObservedBoundedByRaises(false, app.history);
  }
}
