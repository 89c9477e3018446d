/**
 * The MicroBlaze DDR example: the status of the board switches is polled over AXI
 * GPIO, and whenever it changes the low four switches are sent over the UART as the
 * six bytes "b0 b1 b2 b3 CR LF", where bit idx of the status becomes the ASCII digit
 * at position idx.
 */
module SwitchMonitor {
  import opened Platform

  const CHAR_ZERO: bv8 := 0x30
  const CHAR_ONE: bv8 := 0x31
  const CR: bv8 := 0x0D
  const LF: bv8 := 0x0A
  /** sizeof(txBuffer). */
  const MESSAGE_LENGTH: nat := 6
  /** The switch bits that are reported. */
  const REPORTED_BITS: nat := 4

  /** The assignment of the 32-bit GPIO read to the 8-bit `swStatus` keeps the low byte. */
  function Low8(read: bv32): bv8
  {
    (read & 0xFF) as bv8
  }

  /** The character written at position idx: ASCII '0' plus the value of bit idx. */
  function BitChar(status: bv8, idx: nat): bv8
    requires idx < 8
  {
    CHAR_ZERO + (if status & (1 << idx) == 0 then 0 else 1)
  }

  /** The frame sent for a status: the four digits of bits 0..3, then CR and LF. */
  function Message(status: bv8): (m: seq<bv8>)
    ensures |m| == MESSAGE_LENGTH && m[4] == CR && m[5] == LF
  {
    [BitChar(status, 0), BitChar(status, 1), BitChar(status, 2), BitChar(status, 3), CR, LF]
  }

  /** Reading a frame back: digit idx, less ASCII '0', is the weight of bit idx. */
  function Decode(frame: seq<bv8>): bv8
    requires |frame| >= REPORTED_BITS
  {
    (frame[0] - CHAR_ZERO)
    + ((frame[1] - CHAR_ZERO) << 1)
    + ((frame[2] - CHAR_ZERO) << 2)
    + ((frame[3] - CHAR_ZERO) << 3)
  }

  /** Each digit is '1' exactly when its bit is set, and '0' otherwise. */
  lemma MessageDigits(status: bv8, idx: nat)
    requires idx < REPORTED_BITS
    ensures Message(status)[idx] == CHAR_ZERO || Message(status)[idx] == CHAR_ONE
    ensures Message(status)[idx] == CHAR_ONE <==> (status >> idx) & 1 == 1
  {
  }

  /** Decoding a frame gives back the low four switch bits. */
  lemma MessageRoundTrip(status: bv8)
    ensures Decode(Message(status)) == status & 0x0F
  {
  }

  /** Two statuses give the same frame exactly when their low four bits agree. */
  lemma MessageSameIffLowBits(s: bv8, t: bv8)
    ensures Message(s) == Message(t) <==> s & 0x0F == t & 0x0F
  {
    if Message(s) == Message(t) {
      MessageRoundTrip(s);
      MessageRoundTrip(t);
    }
  }

  /** The status after polling `samples`, starting from `prev`. */
  function LastStatus(prev: bv8, samples: seq<bv32>): bv8
  {
    if samples == [] then prev else Low8(samples[|samples| - 1])
  }

  /** The frames the loop sends while it polls `samples`, starting from `prev`. */
  function Sends(prev: bv8, samples: seq<bv32>): seq<seq<bv8>>
  {
    if samples == [] then []
    else
      var front := samples[..|samples| - 1];
      var status := Low8(samples[|samples| - 1]);
      Sends(prev, front) + (if status != LastStatus(prev, front) then [Message(status)] else [])
  }

  lemma SendsAppend(prev: bv8, samples: seq<bv32>, r: bv32)
    ensures LastStatus(prev, samples + [r]) == Low8(r)
    ensures Sends(prev, samples + [r]) ==
      Sends(prev, samples) + (if Low8(r) != LastStatus(prev, samples) then [Message(Low8(r))] else [])
  {
    assert (samples + [r])[..|samples|] == samples;
  }

  /** Every frame on the wire is six bytes ending in CR LF, and at most one is sent per poll. */
  lemma {:induction false} SendsAreFrames(prev: bv8, samples: seq<bv32>)
    ensures |Sends(prev, samples)| <= |samples|
    ensures forall m <- Sends(prev, samples) :: |m| == MESSAGE_LENGTH && m[4] == CR && m[5] == LF
  {
    if samples != [] {
      SendsAreFrames(prev, samples[..|samples| - 1]);
    }
  }

  /** A status that does not change is sent at most once: only when it differs from `prev`. */
  lemma {:induction false} SteadyStatusSentOnce(prev: bv8, samples: seq<bv32>, status: bv8)
    requires forall r <- samples :: Low8(r) == status
    ensures Sends(prev, samples) == if samples != [] && status != prev then [Message(status)] else []
  {
    if samples != [] {
      var front := samples[..|samples| - 1];
      assert forall r <- front :: r in samples;
      SteadyStatusSentOnce(prev, front, status);
      assert samples[|samples| - 1] in samples;
    }
  }

  /** A change confined to switches 4..7 still triggers a send, of an unchanged frame. */
  lemma HighBitsChangeResends(prev: bv8, r: bv32)
    requires Low8(r) != prev && Low8(r) & 0x0F == prev & 0x0F
    ensures Sends(prev, [r]) == [Message(prev)]
  {
    assert [r][..0] == [];
    MessageSameIffLowBits(Low8(r), prev);
  }

  class Monitor {
    const txBuffer: array<bv8>
    var swStatus: bv8
    var prevSwStatus: bv8
    /** Every frame handed to XUartLite_Send, in order. */
    var sent: seq<seq<bv8>>
    var phase: Phase

    /** The buffer is six bytes ending in CR LF. */
    ghost predicate Valid()
      reads this, txBuffer
    {
      txBuffer.Length == MESSAGE_LENGTH && txBuffer[4] == CR && txBuffer[5] == LF
    }

    /**
     * Once anything was sent, the buffer holds the frame of the last status seen,
     * which is the last frame sent.
     */
    ghost predicate Announced()
      reads this, txBuffer
    {
      sent != [] ==> txBuffer[..] == Message(prevSwStatus) == sent[|sent| - 1]
    }

    /**
     * The locals of main: `prevSwStatus` is never initialised, so its first value is
     * whatever `indeterminate` holds.
     */
    constructor (indeterminate: bv8)
      ensures Valid() && Announced() && fresh(txBuffer)
      ensures txBuffer[..] == [0, 0, 0, 0, CR, LF]
      ensures prevSwStatus == indeterminate && sent == [] && phase == Running
    {
      var buffer := new bv8[MESSAGE_LENGTH];
      buffer[0], buffer[1], buffer[2], buffer[3], buffer[4], buffer[5] := 0, 0, 0, 0, CR, LF;
      txBuffer := buffer;
      swStatus, prevSwStatus := 0, indeterminate;
      sent, phase := [], Running;
    }

    /** The UART is initialised first, then the GPIO; either failure halts. */
    method Init(uartStatus: int, gpioStatus: int)
      requires phase == Running
      modifies this`phase
      ensures uartStatus != XST_SUCCESS ==> phase == Halted(UartInitFailed)
      ensures uartStatus == XST_SUCCESS && gpioStatus != XST_SUCCESS ==> phase == Halted(GpioInitFailed)
      ensures phase == Running <==> uartStatus == XST_SUCCESS && gpioStatus == XST_SUCCESS
    {
      if uartStatus != XST_SUCCESS {
        phase := Halted(UartInitFailed);
        return;
      }
      if gpioStatus != XST_SUCCESS {
        phase := Halted(GpioInitFailed);
      }
    }

    /**
     * One pass of the loop: read the switches; on a change remember the new status,
     * rewrite the four digits and send the six-byte buffer.
     */
    method Poll(read: bv32) returns (changed: bool)
      requires Valid() && phase == Running
      modifies this`swStatus, this`prevSwStatus, this`sent, txBuffer
      ensures Valid()
      ensures swStatus == Low8(read) && prevSwStatus == Low8(read)
      ensures changed <==> Low8(read) != old(prevSwStatus)
      ensures changed ==> txBuffer[..] == Message(Low8(read)) && sent == old(sent) + [Message(Low8(read))]
      ensures !changed ==> txBuffer[..] == old(txBuffer[..]) && sent == old(sent)
      ensures changed || old(Announced()) ==> Announced()
    {
      swStatus := Low8(read);
      changed := swStatus != prevSwStatus;
      if changed {
        prevSwStatus := swStatus;
        for idx := 0 to REPORTED_BITS
          invariant forall k | 0 <= k < idx :: txBuffer[k] == BitChar(swStatus, k)
          invariant txBuffer[4] == CR && txBuffer[5] == LF
          invariant swStatus == prevSwStatus == Low8(read) && sent == old(sent)
        {
          txBuffer[idx] := CHAR_ZERO + (if swStatus & (1 << idx) == 0 then 0 else 1);
        }
        assert txBuffer[..] == Message(swStatus);
        sent := sent + [txBuffer[..]];
      }
    }

    /** The application loop over a finite run of switch samples. */
    method RunPolls(samples: seq<bv32>)
      requires Valid() && phase == Running
      modifies this`swStatus, this`prevSwStatus, this`sent, txBuffer
      ensures Valid()
      ensures sent == old(sent) + Sends(old(prevSwStatus), samples)
      ensures prevSwStatus == LastStatus(old(prevSwStatus), samples)
    {
      ghost var start, sentBefore := prevSwStatus, sent;
      var i := 0;
      while i < |samples|
        invariant 0 <= i <= |samples| && Valid()
        invariant sent == sentBefore + Sends(start, samples[..i])
        invariant prevSwStatus == LastStatus(start, samples[..i])
      {
        SendsAppend(start, samples[..i], samples[i]);
        assert samples[..i] + [samples[i]] == samples[..i + 1];
        ghost var sentNow := sent;
        var changed := Poll(samples[i]);
        assert sent == sentNow + (if changed then [Message(Low8(samples[i]))] else []);
        i := i + 1;
      }
      assert samples[..i] == samples;
    }
  }
}
