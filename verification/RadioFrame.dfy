/** Frames on the radio: how the length and flag bits of the first byte are built, and how the receiver
    collects a frame from the FIFO. */
module RadioFrame {
  import opened RadioTypes

  const HEADER: nat := 9
  const MAX_FRAME_LEN: nat := 32

  // ---------------------------------------------------------------- the first byte

  /** MsgLen, the low five bits. */
  function Length(first: bv8): (n: nat)
    ensures n < 32
  {
    var low := first & 0x1f;
    LowBits(first);
    low as nat
  }

  lemma LowBits(first: bv8)
    ensures ((first & 0x1f) as nat) < 32
  {
    assert first & 0x1f < 32;
  }

  /** forgePacket of main.cpp sets the length to 8 and the start flag, then adds the number of data
      bytes to the whole byte. */
  function ForgedControl(size: nat): (control: nat)
    ensures control < 256
  {
    (8 + 64 + size) % 256
  }

  /** The addition stays within the length bits exactly for at most 23 bytes of data. */
  lemma FlagsIntact(size: nat)
    ensures ForgedControl(size) % 32 == 8 + size && ForgedControl(size) / 32 == 2 <==> size <= 23
  {
  }

  // ---------------------------------------------------------------- collecting a frame

  /** One turn of the reading loop: the clock, and the byte the FIFO had, if any. */
  datatype Tick = Tick(us: nat, fifo: Option<bv8>)

  /** How long the FIFO may stay empty, and how long reading may take at all. */
  datatype Limits = Limits(stableEmptyUs: nat, timeoutUs: nat)

  function LimitsFor(scanning: bool): Limits {
    if scanning then Limits(3500, 30000) else Limits(1200, 12000)
  }

  /** What has been stored; `emptySinceUs` is 0 when the last turn had a byte. */
  datatype Fifo = Fifo(buffer: seq<bv8>, overflow: bool, emptySinceUs: nat)

  predicate Complete(buffer: seq<bv8>) {
    buffer != [] && HEADER <= Length(buffer[0]) + 1 <= |buffer|
  }

  function Stored(f: Fifo, value: bv8): Fifo {
    if |f.buffer| < MAX_FRAME_LEN then Fifo(f.buffer + [value], f.overflow, 0) else Fifo(f.buffer, true, 0)
  }

  function Collect(ticks: seq<Tick>, startedUs: nat, limits: Limits, f: Fifo): Fifo
    decreases |ticks|
  {
    if ticks == [] || ticks[0].us - startedUs >= limits.timeoutUs then f
    else if ticks[0].fifo.Some? then
      var next := Stored(f, ticks[0].fifo.value);
      if Complete(next.buffer) then next else Collect(ticks[1..], startedUs, limits, next)
    else if f.emptySinceUs == 0 then Collect(ticks[1..], startedUs, limits, f.(emptySinceUs := ticks[0].us))
    else if ticks[0].us - f.emptySinceUs >= limits.stableEmptyUs then f
    else Collect(ticks[1..], startedUs, limits, f)
  }

  /** Trims what lies behind the announced length, then checks it. */
  function Checked(f: Fifo): Option<seq<bv8>> {
    if f.buffer == [] then None
    else
      var expected := Length(f.buffer[0]) + 1;
      var buffer :=
        if !f.overflow && HEADER <= expected <= MAX_FRAME_LEN && |f.buffer| > expected then f.buffer[..expected]
        else f.buffer;
      if f.overflow || |buffer| < HEADER || expected < HEADER || expected > MAX_FRAME_LEN || |buffer| != expected
      then None else Some(buffer)
  }

  const EMPTY: Fifo := Fifo([], false, 0)

  function Receive(ticks: seq<Tick>, startedUs: nat, scanning: bool): Option<seq<bv8>> {
    Checked(Collect(ticks, startedUs, LimitsFor(scanning), EMPTY))
  }

  predicate Framed(frame: seq<bv8>) {
    HEADER <= |frame| <= MAX_FRAME_LEN && |frame| == Length(frame[0]) + 1
  }

  /** Whatever the FIFO delivers, and when: an accepted frame has 9 to 32 bytes and the length its first
      byte announces. */
  lemma OnlyFramedAccepted(ticks: seq<Tick>, startedUs: nat, scanning: bool)
    ensures var r := Receive(ticks, startedUs, scanning); r.Some? ==> Framed(r.value)
  {
    var f := Collect(ticks, startedUs, LimitsFor(scanning), EMPTY);
    if f.buffer != [] && |f.buffer| > Length(f.buffer[0]) + 1 {
      assert f.buffer[..Length(f.buffer[0]) + 1][0] == f.buffer[0];
    }
  }

  /** The next `n` bytes arrive before the reader gives up: before its timeout, and with no gap as long
      as the FIFO may stay empty. */
  predicate Timely(ticks: seq<Tick>, n: nat, startedUs: nat, limits: Limits, emptySinceUs: nat)
    decreases |ticks|
  {
    n > 0 ==>
      && ticks != [] && ticks[0].us - startedUs < limits.timeoutUs
      && if ticks[0].fifo.Some? then Timely(ticks[1..], n - 1, startedUs, limits, 0)
         else if emptySinceUs == 0 then Timely(ticks[1..], n, startedUs, limits, ticks[0].us)
         else ticks[0].us - emptySinceUs < limits.stableEmptyUs && Timely(ticks[1..], n, startedUs, limits, emptySinceUs)
  }

  function Delivered(ticks: seq<Tick>): seq<bv8> {
    if ticks == [] then []
    else if ticks[0].fifo.Some? then [ticks[0].fifo.value] + Delivered(ticks[1..])
    else Delivered(ticks[1..])
  }

  lemma {:induction false} CollectsFrame(ticks: seq<Tick>, startedUs: nat, limits: Limits, f: Fifo, frame: seq<bv8>)
    requires Framed(frame) && |f.buffer| < |frame| && f.buffer <= frame && !f.overflow
    requires Timely(ticks, |frame| - |f.buffer|, startedUs, limits, f.emptySinceUs)
    requires frame[|f.buffer|..] <= Delivered(ticks)
    ensures Collect(ticks, startedUs, limits, f) == Fifo(frame, false, 0)
    decreases |ticks|
  {
    var n := |f.buffer|;
    var tick := ticks[0];
    if tick.fifo.Some? {
      var next := Stored(f, tick.fifo.value);
      assert frame[n..][0] == Delivered(ticks)[0] == tick.fifo.value;
      assert next.buffer == frame[..n + 1];
      assert frame[n..][1..] == frame[n + 1..] && Delivered(ticks)[1..] == Delivered(ticks[1..]);
      if n + 1 == |frame| {
        assert next.buffer == frame;
      } else {
        assert next.buffer[0] == frame[0];
        CollectsFrame(ticks[1..], startedUs, limits, next, frame);
      }
    } else if f.emptySinceUs == 0 {
      CollectsFrame(ticks[1..], startedUs, limits, f.(emptySinceUs := tick.us), frame);
    } else {
      CollectsFrame(ticks[1..], startedUs, limits, f, frame);
    }
  }

  /** A frame delivered in time comes out byte for byte, whatever bytes trail behind it. */
  lemma FrameComesOut(ticks: seq<Tick>, startedUs: nat, scanning: bool, frame: seq<bv8>)
    requires Framed(frame) && frame <= Delivered(ticks)
    requires Timely(ticks, |frame|, startedUs, LimitsFor(scanning), 0)
    ensures Receive(ticks, startedUs, scanning) == Some(frame)
  {
    CollectsFrame(ticks, startedUs, LimitsFor(scanning), EMPTY, frame);
  }

  lemma IncompleteRefused(f: Fifo)
    requires !Complete(f.buffer)
    ensures Checked(f) == None
  {
  }

  /** The byte that completes a frame is its last. */
  lemma CompletedExactly(f: Fifo, value: bv8)
    requires !Complete(f.buffer) && !f.overflow && Complete(Stored(f, value).buffer)
    ensures Checked(Stored(f, value)) == Some(f.buffer + [value]) && Framed(f.buffer + [value])
  {
    var next := Stored(f, value);
    assert f.buffer != [] ==> next.buffer[0] == f.buffer[0];
  }

  lemma {:induction false} OverflowStays(ticks: seq<Tick>, startedUs: nat, limits: Limits, f: Fifo)
    requires f.overflow
    ensures Checked(Collect(ticks, startedUs, limits, f)) == None
    decreases |ticks|
  {
    hide Complete, Length;
    if ticks != [] {
      OverflowStays(ticks[1..], startedUs, limits,
                    if ticks[0].fifo.Some? then Stored(f, ticks[0].fifo.value) else f.(emptySinceUs := ticks[0].us));
      OverflowStays(ticks[1..], startedUs, limits, f);
    }
  }

  /** What is accepted begins with what is stored, and the rest of it was delivered in time. */
  lemma {:induction false} AcceptedInTime(ticks: seq<Tick>, startedUs: nat, limits: Limits, f: Fifo, frame: seq<bv8>)
    requires !Complete(f.buffer) && Checked(Collect(ticks, startedUs, limits, f)) == Some(frame)
    ensures Framed(frame) && |f.buffer| < |frame| && f.buffer <= frame
    ensures frame[|f.buffer|..] <= Delivered(ticks)
    ensures Timely(ticks, |frame| - |f.buffer|, startedUs, limits, f.emptySinceUs)
    decreases |ticks|
  {
    hide Complete, Length, Checked, Framed;
    IncompleteRefused(f);
    assert !f.overflow by {
      if f.overflow {
        OverflowStays(ticks, startedUs, limits, f);
      }
    }
    var tick, n := ticks[0], |f.buffer|;
    if tick.fifo.Some? {
      var next := Stored(f, tick.fifo.value);
      if Complete(next.buffer) {
        CompletedExactly(f, tick.fifo.value);
        assert frame[n..] == [tick.fifo.value];
      } else {
        if next.overflow {
          OverflowStays(ticks[1..], startedUs, limits, next);
        }
        AcceptedInTime(ticks[1..], startedUs, limits, next, frame);
        assert frame[n..] == [tick.fifo.value] + frame[n + 1..];
      }
    } else if f.emptySinceUs == 0 {
      AcceptedInTime(ticks[1..], startedUs, limits, f.(emptySinceUs := tick.us), frame);
    } else {
      AcceptedInTime(ticks[1..], startedUs, limits, f, frame);
    }
  }

  /** The receiver is exact: it accepts precisely the frames that announce their own length of 9 to 32
      bytes, are what the FIFO delivers first, and are delivered in time: within 30 ms with no gap of
      3.5 ms during a scan, within 12 ms with no gap of 1.2 ms otherwise. */
  lemma ReceivedIff(ticks: seq<Tick>, startedUs: nat, scanning: bool, frame: seq<bv8>)
    ensures Receive(ticks, startedUs, scanning) == Some(frame) <==>
      && Framed(frame) && frame <= Delivered(ticks)
      && Timely(ticks, |frame|, startedUs, if scanning then Limits(3500, 30000) else Limits(1200, 12000), 0)
  {
    if Receive(ticks, startedUs, scanning) == Some(frame) {
      AcceptedInTime(ticks, startedUs, LimitsFor(scanning), EMPTY, frame);
    } else if Framed(frame) && frame <= Delivered(ticks) && Timely(ticks, |frame|, startedUs, LimitsFor(scanning), 0) {
      FrameComesOut(ticks, startedUs, scanning, frame);
    }
  }
}
