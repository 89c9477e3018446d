/**
 * The PS DMA example: a 128-byte source buffer holding a byte ramp is copied by the
 * DMA engine into a destination buffer; each completed transfer is checked byte for
 * byte, the ramp is advanced by one (mod 256) and the transfer is launched again.
 *
 * The engine's own work is modelled by one assumption: a transfer that completes
 * has copied the source buffer into the destination buffer.
 */
module Dma {
  import opened Platform
  import Arith
  import FlagChannel

  /** sizeof(sourceBuffer) and sizeof(destBuffer). */
  const BUFFER_SIZE: nat := 128
  const BURST_SIZE: nat := 4
  const BURST_LEN: nat := 4
  const ADDRESS_INCREMENT: nat := 1

  /** The channel-control half of the vendor's DMA command. */
  datatype ChanCtrl = ChanCtrl(
    srcBurstSize: nat, srcBurstLen: nat, srcInc: nat, srcProtCtrl: nat, srcCacheCtrl: nat,
    dstBurstSize: nat, dstBurstLen: nat, dstInc: nat, dstProtCtrl: nat, dstCacheCtrl: nat,
    endianSwapSize: nat)

  /** The buffer descriptor: where from, where to, how many bytes. */
  datatype BufferDescriptor = BufferDescriptor(srcAddr: u32, dstAddr: u32, length: nat)

  /** The DMA command; program buffers are addresses, 0 standing for "none". */
  datatype Cmd = Cmd(
    chanCtrl: ChanCtrl, bd: BufferDescriptor,
    userDmaProg: nat, userDmaProgLength: nat,
    generatedDmaProg: nat, generatedDmaProgLength: nat)

  /** The value-initialised command `XDmaPs_Cmd dmaCmd{}`: every field zero. */
  function ZeroCmd(): Cmd
  {
    Cmd(ChanCtrl(0, 0, 0, 0, 0, 0, 0, 0, 0, 0, 0), BufferDescriptor(0, 0, 0), 0, 0, 0, 0)
  }

  /** The nine fields StartDma assigns hold the burst shape and the transfer. */
  predicate TransferFieldsSet(c: Cmd, src: u32, dst: u32, size: nat)
  {
    && c.chanCtrl.srcBurstSize == BURST_SIZE && c.chanCtrl.srcBurstLen == BURST_LEN
    && c.chanCtrl.srcInc == ADDRESS_INCREMENT
    && c.chanCtrl.dstBurstSize == BURST_SIZE && c.chanCtrl.dstBurstLen == BURST_LEN
    && c.chanCtrl.dstInc == ADDRESS_INCREMENT
    && c.bd == BufferDescriptor(src, dst, size)
  }

  /** Every field StartDma does not assign keeps its value-initialised zero. */
  predicate RestZero(c: Cmd)
  {
    && c.chanCtrl.srcProtCtrl == 0 && c.chanCtrl.srcCacheCtrl == 0
    && c.chanCtrl.dstProtCtrl == 0 && c.chanCtrl.dstCacheCtrl == 0
    && c.chanCtrl.endianSwapSize == 0
    && c.userDmaProg == 0 && c.userDmaProgLength == 0
    && c.generatedDmaProg == 0 && c.generatedDmaProgLength == 0
  }

  /** A command built the way StartDma builds it. */
  predicate IsTransfer(c: Cmd, src: u32, dst: u32, size: nat)
  {
    TransferFieldsSet(c, src, dst, size) && RestZero(c)
  }

  /** The command StartDma hands to the engine is fully determined by its three arguments. */
  lemma TransferDetermined(c1: Cmd, c2: Cmd, src: u32, dst: u32, size: nat)
    requires IsTransfer(c1, src, dst, size) && IsTransfer(c2, src, dst, size)
    ensures c1 == c2
  {
    assert c1.chanCtrl == c2.chanCtrl;
  }

  /** The source contents after `k` completed cycles: byte i holds (i + k) mod 256. */
  function Pattern(k: nat): seq<u8>
  {
    seq(BUFFER_SIZE, i => (i + k) % 256)
  }

  /** The re-adjust step: every byte incremented with 8-bit wrap-around. */
  function Incremented(s: seq<u8>): (r: seq<u8>)
    ensures |r| == |s|
  {
    seq(|s|, i requires 0 <= i < |s| => (s[i] as int + 1) % 256)
  }

  /** Before any cycle the source is the ramp 0, 1, ..., 127. */
  lemma PatternZeroIsRamp()
    ensures forall i | 0 <= i < BUFFER_SIZE :: Pattern(0)[i] == i
  {
  }

  /** One re-adjust step takes the pattern of cycle k to the pattern of cycle k + 1. */
  lemma IncrementAdvancesPattern(k: nat)
    ensures Incremented(Pattern(k)) == Pattern(k + 1)
  {
    var a, b := Incremented(Pattern(k)), Pattern(k + 1);
    forall i | 0 <= i < BUFFER_SIZE
      ensures a[i] == b[i]
    {
      var x := i + k;
      assert a[i] == (x % 256 + 1) % 256;
      assert b[i] == (x + 1) % 256;
      ModSucc(x);
    }
  }

  lemma ModSucc(x: nat)
    ensures (x % 256 + 1) % 256 == (x + 1) % 256
  {
    var q, r := x / 256, x % 256;
    assert x == q * 256 + r;
    if r == 255 {
      Arith.DivUnique(x + 1, 256, q + 1, 0);
    } else {
      Arith.DivUnique(x + 1, 256, q, r + 1);
    }
  }

  /** The ramp comes back every 256 cycles. */
  lemma PatternPeriodic(k: nat)
    ensures Pattern(k + 256) == Pattern(k)
  {
    var a, b := Pattern(k + 256), Pattern(k);
    forall i | 0 <= i < BUFFER_SIZE
      ensures a[i] == b[i]
    {
      var q, r := (i + k) / 256, (i + k) % 256;
      Arith.DivUnique(i + k + 256, 256, q + 1, r);
    }
  }

  /** The fill loop of main, as evidently intended: byte idx receives idx. */
  method FillRamp(a: array<u8>)
    requires a.Length == BUFFER_SIZE
    modifies a
    ensures a[..] == Pattern(0)
  {
    for idx := 0 to BUFFER_SIZE
      invariant forall k | 0 <= k < idx :: a[k] == k
    {
      a[idx] := idx;
    }
  }

  /**
   * The fill loop as written, read with C++17 sequencing, where the right operand of
   * `=` (here `idx++`) is evaluated before the left one: each pass stores the old
   * index one byte further on. `mem` is the source buffer followed by the byte after it.
   */
  method FillAsWritten(mem: array<u8>)
    requires mem.Length == BUFFER_SIZE + 1
    modifies mem
    ensures mem[0] == old(mem[0])
    ensures forall i | 1 <= i <= BUFFER_SIZE :: mem[i] == i - 1
  {
    var idx := 0;
    while idx < BUFFER_SIZE
      invariant 0 <= idx <= BUFFER_SIZE
      invariant mem[0] == old(mem[0])
      invariant forall i | 1 <= i <= idx :: mem[i] == i - 1
    {
      var stored := idx;
      idx := idx + 1;
      mem[idx] := stored;
    }
  }

  /**
   * What the as-written fill leaves is not the ramp: byte 1 holds 0, and the last
   * store lands on the byte after the 128-byte buffer.
   */
  lemma AsWrittenMissesRamp(mem: seq<u8>)
    requires |mem| == BUFFER_SIZE + 1
    requires forall i | 1 <= i <= BUFFER_SIZE :: mem[i] == i - 1
    ensures mem[..BUFFER_SIZE] != Pattern(0)
    ensures mem[BUFFER_SIZE] == BUFFER_SIZE - 1
  {
    assert mem[..BUFFER_SIZE][1] == mem[1] == 0;
    assert Pattern(0)[1] == 1;
  }

  /** The re-adjust loop of main: each source byte goes up by one, mod 256. */
  method IncrementAll(a: array<u8>)
    modifies a
    ensures a[..] == Incremented(old(a[..]))
  {
    for idx := 0 to a.Length
      invariant forall k | 0 <= k < idx :: a[k] == (old(a[k]) as int + 1) % 256
      invariant forall k | idx <= k < a.Length :: a[k] == old(a[k])
    {
      a[idx] := (a[idx] as int + 1) % 256;
    }
  }

  class DmaApp {
    const source: array<u8>
    const dest: array<u8>
    /** The bus addresses of the two buffers, as `(uint32_t)` casts of their pointers. */
    const sourceAddr: u32
    const destAddr: u32
    var done: bool
    /** A transfer has been started and has not completed yet. */
    var inFlight: bool
    /** Every command handed to the engine, in order. */
    var launches: seq<Cmd>
    var phase: Phase
    ghost var history: seq<FlagChannel.Event>
    /** Completed check-and-advance rounds of the main loop. */
    ghost var cycles: nat

    ghost predicate Valid()
      reads this
    {
      && source.Length == BUFFER_SIZE && dest.Length == BUFFER_SIZE && source != dest
      && done == FlagChannel.FlagAfter(false, history)
    }

    /**
     * The steady state of the running example: the source holds the pattern of the
     * current cycle, exactly one of "in flight" and "done" holds, a done transfer has
     * left an exact copy, every observed done event completed one cycle, and every
     * launch so far moved the same two buffers.
     */
    ghost predicate Cycling()
      reads this, source, dest
    {
      && Valid()
      && phase == Running
      && source[..] == Pattern(cycles)
      && inFlight != done
      && (done ==> dest[..] == source[..])
      && |launches| == cycles + 1
      && cycles == FlagChannel.Observed(false, history)
      && SameTransfer()
    }

    /** The two zero-initialised global buffers. */
    constructor (sourceAddr: u32, destAddr: u32)
      ensures Valid() && fresh(source) && fresh(dest)
      ensures this.sourceAddr == sourceAddr && this.destAddr == destAddr
      ensures source[..] == dest[..] == seq(BUFFER_SIZE, _ => 0)
      ensures !done && !inFlight && launches == [] && phase == Running
      ensures history == [] && cycles == 0
    {
      source := new u8[BUFFER_SIZE](_ => 0);
      dest := new u8[BUFFER_SIZE](_ => 0);
      this.sourceAddr, this.destAddr := sourceAddr, destAddr;
      done, inFlight, launches, phase := false, false, [], Running;
      history, cycles := [], 0;
    }

    /**
     * InitDma: lookup, initialisation and self-test, then binding the done handler of
     * channel 0 and the fault handler; the first step that fails halts.
     */
    method InitDma(r: DriverReport, doneBindStatus: int, faultBindStatus: int)
      requires phase == Running
      modifies this`phase
      ensures BringUp(r).Some? ==> phase == Halted(BringUp(r).value)
      ensures BringUp(r).None? && doneBindStatus != XST_SUCCESS ==> phase == Halted(HandlerRejected)
      ensures BringUp(r).None? && doneBindStatus == XST_SUCCESS && faultBindStatus != XST_SUCCESS ==>
        phase == Halted(HandlerRejected)
      ensures phase == Running <==>
        BringUp(r).None? && doneBindStatus == XST_SUCCESS && faultBindStatus == XST_SUCCESS
    {
      var fault := BringUp(r);
      if fault.Some? {
        phase := Halted(fault.value);
        return;
      }
      if doneBindStatus != XST_SUCCESS {
        phase := Halted(HandlerRejected);
        return;
      }
      if faultBindStatus != XST_SUCCESS {
        phase := Halted(HandlerRejected);
      }
    }

    /**
     * StartDma: builds the command from zero, assigning only the burst shape and the
     * transfer, hands it to channel 0, and halts when the engine refuses it.
     */
    method StartDma(src: u32, dst: u32, size: nat, startStatus: int)
      modifies this`launches, this`inFlight, this`phase
      ensures |launches| == |old(launches)| + 1 && launches[..|old(launches)|] == old(launches)
      ensures IsTransfer(launches[|launches| - 1], src, dst, size)
      ensures startStatus == XST_SUCCESS ==> inFlight && phase == old(phase)
      ensures startStatus != XST_SUCCESS ==> phase == Halted(DmaStartFailed) && inFlight == old(inFlight)
    {
      var cmd := ZeroCmd();
      cmd := cmd.(chanCtrl := cmd.chanCtrl.(srcBurstSize := BURST_SIZE));
      cmd := cmd.(chanCtrl := cmd.chanCtrl.(srcBurstLen := BURST_LEN));
      cmd := cmd.(chanCtrl := cmd.chanCtrl.(srcInc := ADDRESS_INCREMENT));
      cmd := cmd.(chanCtrl := cmd.chanCtrl.(dstBurstSize := BURST_SIZE));
      cmd := cmd.(chanCtrl := cmd.chanCtrl.(dstBurstLen := BURST_LEN));
      cmd := cmd.(chanCtrl := cmd.chanCtrl.(dstInc := ADDRESS_INCREMENT));
      cmd := cmd.(bd := cmd.bd.(srcAddr := src));
      cmd := cmd.(bd := cmd.bd.(dstAddr := dst));
      cmd := cmd.(bd := cmd.bd.(length := size));
      launches := launches + [cmd];
      if startStatus != XST_SUCCESS {
        phase := Halted(DmaStartFailed);
        return;
      }
      inFlight := true;
    }

    /** DmaDoneHandler: sets the done flag and nothing else. */
    method DmaDoneHandler()
      requires Valid()
      modifies this`done, this`history
      ensures Valid()
      ensures done && history == old(history) + [FlagChannel.Raise]
    {
      FlagChannel.Extend(false, history, FlagChannel.Raise);
      done := true;
      history := history + [FlagChannel.Raise];
    }

    /** DmaFaultHandler: stalls the application, whatever the buffers hold. */
    method DmaFaultHandler()
      modifies this`phase
      ensures phase == Halted(DmaFault)
    {
      phase := Halted(DmaFault);
    }

    /**
     * The engine finishing the transfer in flight: the destination becomes a copy of
     * the source, and the done interrupt is dispatched.
     */
    method TransferCompletes()
      requires Valid() && inFlight
      modifies dest, this`inFlight, this`done, this`history
      ensures Valid()
      ensures dest[..] == source[..] && !inFlight && done
      ensures history == old(history) + [FlagChannel.Raise]
      ensures old(Cycling()) ==> Cycling()
    {
      forall i | 0 <= i < BUFFER_SIZE {
        dest[i] := source[i];
      }
      inFlight := false;
      DmaDoneHandler();
    }

    /** Every launch so far moved the same two buffers, 128 bytes at a time. */
    ghost predicate SameTransfer()
      reads this
    {
      forall c <- launches :: IsTransfer(c, sourceAddr, destAddr, BUFFER_SIZE)
    }

    /**
     * The body of the loop once a done event has been consumed: compare the buffers
     * (a mismatch halts), advance the source, launch the same transfer again.
     */
    method CheckAndRelaunch(startStatus: int)
      requires Valid() && phase == Running
      modifies source, this`phase, this`launches, this`inFlight, this`cycles
      ensures Valid()
      ensures old(source[..]) != dest[..] ==>
        phase == Halted(DataMismatch) && source[..] == old(source[..]) && launches == old(launches)
        && cycles == old(cycles) && inFlight == old(inFlight)
      ensures old(source[..]) == dest[..] ==>
        && source[..] == Incremented(old(source[..]))
        && |launches| == |old(launches)| + 1 && launches[..|old(launches)|] == old(launches)
        && IsTransfer(launches[|launches| - 1], sourceAddr, destAddr, BUFFER_SIZE)
        && (startStatus == XST_SUCCESS ==> phase == Running && inFlight)
        && (startStatus != XST_SUCCESS ==> phase == Halted(DmaStartFailed) && inFlight == old(inFlight))
        && cycles == old(cycles) + 1
      ensures old(SameTransfer()) ==> SameTransfer()
      ensures old(source[..]) == dest[..] == Pattern(old(cycles)) ==> source[..] == Pattern(cycles)
    {
      if source[..] != dest[..] {
        phase := Halted(DataMismatch);
        return;
      }
      ghost var before := source[..];
      IncrementAll(source);
      cycles := cycles + 1;
      IncrementAdvancesPattern(cycles - 1);
      StartDma(sourceAddr, destAddr, BUFFER_SIZE, startStatus);
    }

    /**
     * One pass of the application loop: when the done flag is set it is cleared and
     * the loop body runs once; otherwise the loop spins once. In the steady state the
     * comparison never fails.
     */
    method PollDone(startStatus: int) returns (acted: bool)
      requires Valid() && phase == Running
      modifies this`done, this`history, source, this`phase, this`launches, this`inFlight, this`cycles
      ensures Valid()
      ensures history == old(history) + [FlagChannel.Poll]
      ensures acted == old(done) && !done
      ensures !acted ==>
        source[..] == old(source[..]) && launches == old(launches) && phase == Running
        && inFlight == old(inFlight)
      ensures acted ==> (phase == Halted(DataMismatch) <==> old(source[..]) != dest[..])
      ensures old(Cycling()) ==> phase != Halted(DataMismatch)
      ensures old(Cycling()) && startStatus == XST_SUCCESS ==> Cycling()
      ensures old(Cycling()) && acted ==> cycles == old(cycles) + 1
    {
      FlagChannel.Extend(false, history, FlagChannel.Poll);
      history := history + [FlagChannel.Poll];
      acted := done;
      if !done {
        return;
      }
      ghost var wasCycling := Cycling();
      ghost var same := source[..] == dest[..];
      assert wasCycling ==> same;
      done := false;
      CheckAndRelaunch(startStatus);
      assert same ==> phase != Halted(DataMismatch);
    }

    /**
     * main up to its loop: fill the ramp, bring up the interrupt controller and the
     * engine, and launch the first transfer.
     */
    method Boot(gic: DriverReport, r: DriverReport, doneBindStatus: int, faultBindStatus: int,
                startStatus: int)
      requires Valid() && phase == Running && !done && !inFlight
      requires launches == [] && cycles == 0 && history == []
      modifies source, this`phase, this`launches, this`inFlight
      ensures source[..] == Pattern(0)
      ensures phase == Running <==>
        && BringUp(gic).None? && BringUp(r).None?
        && doneBindStatus == XST_SUCCESS && faultBindStatus == XST_SUCCESS
        && startStatus == XST_SUCCESS
      ensures phase == Running ==> Cycling() && inFlight
      ensures |launches| == if BringUp(gic).None? && BringUp(r).None?
        && doneBindStatus == XST_SUCCESS && faultBindStatus == XST_SUCCESS then 1 else 0
    {
      FillRamp(source);
      var fault := BringUp(gic);
      if fault.Some? {
        phase := Halted(fault.value);
        return;
      }
      InitDma(r, doneBindStatus, faultBindStatus);
      if phase != Running {
        return;
      }
      StartDma(sourceAddr, destAddr, BUFFER_SIZE, startStatus);
    }

    /**
     * `n` rounds of the running example with every launch accepted: the engine
     * completes, the loop checks and advances. No round halts, and the source then
     * holds the pattern of `n` more cycles.
     */
    method RunCycles(n: nat)
      requires Cycling() && inFlight
      modifies source, dest, this`done, this`history, this`phase, this`launches, this`inFlight, this`cycles
      ensures Cycling() && inFlight
      ensures cycles == old(cycles) + n
      ensures source[..] == Pattern(old(cycles) + n)
    {
      var round := 0;
      while round < n
        invariant 0 <= round <= n
        invariant Cycling() && inFlight
        invariant cycles == old(cycles) + round
      {
        TransferCompletes();
        var _ := PollDone(XST_SUCCESS);
        round := round + 1;
      }
    }
  }
}
