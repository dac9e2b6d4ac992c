/** The receive-side channel scan: its temporary 2W window, its dwell counter, and how a
    transmit batch interrupts and resumes it. */
module ScanProtocol {
  import opened RadioTypes
  import Cyclic

  const DEFAULT_SCAN_INTERVAL_US: nat := 13520
  const TWOW_SCAN_INTERVAL_US: nat := 2700
  const TWOW_SCAN_WINDOW_MS: nat := 8000
  const GRANULARITY_US: nat := 1000
  const PREAMBLE_RECOVERY_US: nat := 15000

  datatype Scan = Scan(
    channels: seq<nat>,     // scan_freqs, configuredNumFreqs; [] before start()
    active: bool,           // twoWScanActive
    untilMs: nat,           // twoWScanUntilMs
    numFreqs: nat,          // num_freqs
    dwellUs: nat,           // scanTimeUs
    normalUs: nat,          // normalScanTimeUs
    idx: nat,               // currentFreqIdx
    tick: nat,              // tickCounter
    pre: nat,               // preCounter
    carrier: nat,           // frequency the radio is tuned to
    radio: RadioState)      // radioState

  const UNSTARTED: Scan := Scan([], false, 0, 0, 0, DEFAULT_SCAN_INTERVAL_US, 0, 0, 0, 0, Idle)

  /** What one tickerCounter call observes. */
  datatype Seen = Seen(batchActive: bool, txReady: bool, payloadReady: bool, freshIrq: bool, nowMs: nat)

  function Start(s: Scan, channels: seq<nat>, scanTimeUs: nat): Scan
    requires channels != []
  {
    var normal := if scanTimeUs != 0 then scanTimeUs else DEFAULT_SCAN_INTERVAL_US;
    s.(channels := channels, active := false, untilMs := 0, numFreqs := 1, dwellUs := normal,
       normalUs := normal, idx := 0, carrier := channels[0], radio := Rx)
  }

  /** The dwell a scan over the configured channels really uses. */
  function ScanDwell(s: Scan, dwellUs: nat): nat {
    var wanted := if dwellUs != 0 then dwellUs else TWOW_SCAN_INTERVAL_US;
    if |s.channels| > 1 && wanted == s.normalUs then TWOW_SCAN_INTERVAL_US else wanted
  }

  function StartTwoWScan(s: Scan, windowMs: nat, dwellUs: nat, nowMs: nat): Scan {
    if s.channels == [] then s
    else s.(active := true, untilMs := nowMs + windowMs, numFreqs := |s.channels|, dwellUs := ScanDwell(s, dwellUs),
            idx := 0, tick := 0, pre := 0, carrier := s.channels[0], radio := Rx)
  }

  function StopTwoWScan(s: Scan): Scan {
    if s.channels == [] then s
    else s.(active := false, untilMs := 0, numFreqs := 1, dwellUs := s.normalUs,
            idx := 0, tick := 0, pre := 0, carrier := s.channels[0], radio := Rx)
  }

  /** The state tickerCounter goes on with after its preamble branch. */
  function AfterPreamble(s: Scan): Scan {
    if s.radio != Preamble then s
    else if (s.pre + 1) * GRANULARITY_US >= PREAMBLE_RECOVERY_US then s.(tick := 0, pre := 0, radio := Rx)
    else s.(tick := 0, pre := s.pre + 1)
  }

  function Hop(s: Scan): Scan
    requires ScanInv(s)
  {
    if (s.tick + 1) * GRANULARITY_US < s.dwellUs then s.(tick := s.tick + 1)
    else if s.numFreqs == 1 then s.(tick := 0)
    else
      var next := if s.idx + 1 >= s.numFreqs then 0 else s.idx + 1;
      s.(tick := 0, idx := next, carrier := s.channels[next])
  }

  /** The part of tickerCounter that runs in RX state. */
  function ListenTick(t: Scan, o: Seen): Scan
    requires ScanInv(t)
  {
    if t.radio != Rx then t
    else if t.active && o.nowMs >= t.untilMs then StopTwoWScan(t)
    else if t.active && o.payloadReady && o.freshIrq then t.(tick := 0, pre := 0)
    else Hop(t)
  }

  function TickerCounter(s: Scan, o: Seen): Scan
    requires ScanInv(s)
  {
    if o.batchActive then s
    else if s.radio == Payload then
      if o.txReady then s.(radio := Rx) else s.(radio := Rx, tick := 0, pre := 0)
    else if s.radio == Preamble && o.payloadReady then s.(radio := Rx, tick := 0, pre := 0)
    else ListenTick(AfterPreamble(s), o)
  }

  /** Facts of every reachable state once start() ran. */
  ghost predicate ScanInv(s: Scan) {
    && 0 < |s.channels| <= 255
    && s.idx < s.numFreqs <= |s.channels|
    && s.numFreqs == (if s.active then |s.channels| else 1)
    && s.dwellUs > 0 && s.normalUs > 0
    && s.dwellUs == (if s.active then ScanDwell(s, s.dwellUs) else s.normalUs)
  }

  datatype Op =
    | OpStart(channels: seq<nat>, scanTimeUs: nat)
    | OpScan(windowMs: nat, dwellUs: nat, nowMs: nat)
    | OpStop
    | OpTick(seen: Seen)
    | OpIrq(radio: RadioState)       // an interrupt or the transmit engine sets radioState
    | OpTune(frequency: nat)         // the transmit engine tunes the carrier to a packet

  predicate OpAllowed(op: Op) {
    op.OpStart? ==> 0 < |op.channels| <= 255
  }

  function Apply(s: Scan, op: Op): Scan
    requires OpAllowed(op)
    requires ScanInv(s)
  {
    match op
    case OpStart(channels, scanTimeUs) => Start(s, channels, scanTimeUs)
    case OpScan(windowMs, dwellUs, nowMs) => StartTwoWScan(s, windowMs, dwellUs, nowMs)
    case OpStop => StopTwoWScan(s)
    case OpTick(seen) => TickerCounter(s, seen)
    case OpIrq(radio) => s.(radio := radio)
    case OpTune(frequency) => s.(carrier := frequency)
  }

  lemma ApplyKeepsInv(s: Scan, op: Op)
    requires OpAllowed(op) && ScanInv(s)
    ensures ScanInv(Apply(s, op))
  {
  }

  predicate AllAllowed(ops: seq<Op>) {
    forall op :: op in ops ==> OpAllowed(op)
  }

  ghost function Ops(s: Scan, ops: seq<Op>): (t: Scan)
    requires ScanInv(s) && AllAllowed(ops)
    ensures ScanInv(t)
    decreases |ops|
  {
    if ops == [] then s
    else
      ApplyKeepsInv(s, ops[0]);
      Ops(Apply(s, ops[0]), ops[1..])
  }

  /** From start() on, in every reachable state the current channel is one the scan may use, an
      idle receiver stays on one channel, and an active scan covers all configured ones. */
  lemma ReachableScan(channels: seq<nat>, scanTimeUs: nat, ops: seq<Op>)
    requires 0 < |channels| <= 255 && AllAllowed(ops)
    ensures var s0 := Start(UNSTARTED, channels, scanTimeUs);
            && ScanInv(s0)
            && var s := Ops(s0, ops);
               s.idx < s.numFreqs <= |s.channels| && s.numFreqs == if s.active then |s.channels| else 1
  {
  }

  // ---------------------------------------------------------------- dwell and fairness

  /** Ticks one dwell lasts: the dwell time rounded up to whole milliseconds. */
  function DwellTicks(s: Scan): nat {
    (s.dwellUs + GRANULARITY_US - 1) / GRANULARITY_US
  }

  /** A tick in RX state with nothing received, no transmission and time left. */
  predicate Quiet(s: Scan, o: Seen) {
    && !o.batchActive && s.radio == Rx
    && (s.active ==> o.nowMs < s.untilMs && !(o.payloadReady && o.freshIrq))
  }

  ghost predicate AllQuiet(s: Scan, os: seq<Seen>) {
    forall i :: 0 <= i < |os| ==> Quiet(s, os[i])
  }

  ghost function Ticks(s: Scan, os: seq<Seen>): (t: Scan)
    requires ScanInv(s)
    ensures ScanInv(t)
  {
    if os == [] then s
    else
      var t := Ticks(s, os[..|os| - 1]);
      ApplyKeepsInv(t, OpTick(os[|os| - 1]));
      TickerCounter(t, os[|os| - 1])
  }

  /** k quiet ticks, in closed form: whole dwells advance the channel cyclically, the remainder
      is the tick counter. A dwell is therefore exactly DwellTicks long. */
  ghost predicate ClosedForm(s: Scan, k: nat, t: Scan)
    requires ScanInv(s)
  {
    && t.tick == k % DwellTicks(s)
    && t.idx == (s.idx + k / DwellTicks(s)) % s.numFreqs
    && t == s.(tick := t.tick, idx := t.idx, carrier := t.carrier)
    && t.carrier == if k / DwellTicks(s) >= 1 && s.numFreqs > 1 then s.channels[t.idx] else s.carrier
  }

  lemma HopClosedForm(s: Scan, k: nat, t: Scan)
    requires ScanInv(s) && ScanInv(t) && ClosedForm(s, k, t)
    ensures ClosedForm(s, k + 1, Hop(t))
  {
    var d := DwellTicks(s);
    Cyclic.Step(k, d);
    Cyclic.Step(s.idx + k / d, s.numFreqs);
    assert (t.tick + 1) * GRANULARITY_US < s.dwellUs <==> t.tick + 1 < d;
  }

  lemma {:induction false} QuietTicks(s: Scan, os: seq<Seen>)
    requires ScanInv(s) && s.tick == 0 && AllQuiet(s, os)
    ensures ClosedForm(s, |os|, Ticks(s, os))
  {
    if os == [] {
      Cyclic.Quotient(0, DwellTicks(s), 0, 0);
      Cyclic.Quotient(s.idx, s.numFreqs, 0, s.idx);
    } else {
      var k := |os| - 1;
      assert AllQuiet(s, os[..k]);
      QuietTicks(s, os[..k]);
      assert Quiet(s, os[k]);
      HopClosedForm(s, k, Ticks(s, os[..k]));
    }
  }

  /** The channel after `dwells` whole dwells of a quiet observation sequence. */
  ghost function IdxAfterDwells(s: Scan, os: seq<Seen>, dwells: nat): nat
    requires ScanInv(s)
  {
    var k := dwells * DwellTicks(s);
    if k <= |os| then Ticks(s, os[..k]).idx else 0
  }

  lemma DwellsClosedForm(s: Scan, os: seq<Seen>, dwells: nat)
    requires ScanInv(s) && s.tick == 0 && AllQuiet(s, os) && dwells * DwellTicks(s) <= |os|
    ensures IdxAfterDwells(s, os, dwells) == (s.idx + dwells) % s.numFreqs
  {
    var k := dwells * DwellTicks(s);
    assert AllQuiet(s, os[..k]);
    QuietTicks(s, os[..k]);
    Cyclic.Quotient(k, DwellTicks(s), dwells, 0);
  }

  /** Any window of numFreqs undisturbed dwells visits every channel, each exactly once. */
  lemma EveryChannelOncePerRound(s: Scan, os: seq<Seen>, first: nat, channel: nat)
    requires ScanInv(s) && s.tick == 0 && AllQuiet(s, os)
    requires channel < s.numFreqs && (first + s.numFreqs) * DwellTicks(s) <= |os|
    ensures exists j: nat {:trigger IdxAfterDwells(s, os, j)} ::
              first <= j < first + s.numFreqs && IdxAfterDwells(s, os, j) == channel
              && forall i: nat {:trigger IdxAfterDwells(s, os, i)} ::
                   first <= i < first + s.numFreqs && IdxAfterDwells(s, os, i) == channel ==> i == j
  {
    var n, d := s.numFreqs, DwellTicks(s);
    forall i: nat | first <= i < first + n
      ensures IdxAfterDwells(s, os, i) == (s.idx + i) % n
    {
      Cyclic.Distribute(first + n, i, d);
      Cyclic.MulAtLeast(first + n - i, d);
      DwellsClosedForm(s, os, i);
    }
    var j := Cyclic.Shift(s.idx + first, channel, n);
    assert IdxAfterDwells(s, os, first + j) == (s.idx + (first + j)) % n;
    assert (s.idx + first) + j == s.idx + (first + j);
    forall i: nat | first <= i < first + n && IdxAfterDwells(s, os, i) == channel
      ensures i == first + j
    {
      assert s.idx + i == (s.idx + first) + (i - first);
      Cyclic.ShiftsDiffer(s.idx + first, i - first, j, n);
    }
  }

  // ---------------------------------------------------------------- deadline

  /** A tick that reaches the receive part of tickerCounter. */
  predicate RxTick(s: Scan, o: Seen) {
    !o.batchActive && (s.radio == Rx || (s.radio == Preamble && !o.payloadReady && AfterPreamble(s).radio == Rx))
  }

  /** The operation is a tick that finds the deadline passed. */
  predicate FindsDeadline(s: Scan, op: Op, untilMs: nat) {
    op.OpTick? && RxTick(s, op.seen) && op.seen.nowMs >= untilMs
  }

  /** Ticks, interrupts and transmissions, but no call that starts or stops a scan. */
  predicate LeftAlone(op: Op) {
    op.OpTick? || op.OpIrq? || op.OpTune?
  }

  /** One operation on an active scan: it ends exactly by a tick that finds the deadline passed; the
      receiver is then back on the first channel with its normal dwell. */
  lemma OpEndsScan(s: Scan, op: Op)
    requires ScanInv(s) && s.active && LeftAlone(op)
    ensures !Apply(s, op).active <==> FindsDeadline(s, op, s.untilMs)
    ensures !Apply(s, op).active ==> Apply(s, op) == StopTwoWScan(s)
    ensures Apply(s, op).active ==> Apply(s, op).untilMs == s.untilMs
  {
  }

  lemma StaysStopped(s: Scan, op: Op)
    requires ScanInv(s) && !s.active && LeftAlone(op)
    ensures !Apply(s, op).active
  {
  }

  lemma {:induction false} OpsSplit(s: Scan, ops: seq<Op>, op: Op)
    requires ScanInv(s) && OpAllowed(op) && AllAllowed(ops)
    ensures AllAllowed(ops + [op])
    ensures Ops(s, ops + [op]) == Apply(Ops(s, ops), op)
    decreases |ops|
  {
    if ops == [] {
      assert [op][1..] == [];
    } else {
      assert (ops + [op])[1..] == ops[1..] + [op];
      ApplyKeepsInv(s, ops[0]);
      OpsSplit(Apply(s, ops[0]), ops[1..], op);
    }
  }

  ghost predicate AllLeftAlone(ops: seq<Op>) {
    forall op :: op in ops ==> LeftAlone(op)
  }

  lemma PrefixLeftAlone(ops: seq<Op>, i: nat)
    requires AllLeftAlone(ops) && i <= |ops|
    ensures AllLeftAlone(ops[..i]) && AllAllowed(ops[..i])
  {
    forall op | op in ops[..i]
      ensures LeftAlone(op) && OpAllowed(op)
    {
      assert op in ops;
    }
  }

  /** The state just before operation `i`. */
  ghost function Upto(s: Scan, ops: seq<Op>, i: nat): (t: Scan)
    requires ScanInv(s) && AllLeftAlone(ops) && i <= |ops|
    ensures ScanInv(t)
  {
    PrefixLeftAlone(ops, i);
    Ops(s, ops[..i])
  }

  /** Operation `i` is a tick that finds the deadline passed. */
  ghost predicate EndsScan(s: Scan, ops: seq<Op>, i: nat)
    requires ScanInv(s) && AllLeftAlone(ops) && i < |ops|
  {
    FindsDeadline(Upto(s, ops, i), ops[i], s.untilMs)
  }

  /** Over any sequence of ticks, interrupts and transmissions, a scan is active, with its deadline, up
      to the first RX-state tick at or past the deadline, and that tick ends it. */
  lemma {:induction false} ScanEndsAtDeadline(s: Scan, ops: seq<Op>)
    requires ScanInv(s) && s.active && AllLeftAlone(ops)
    ensures Upto(s, ops, |ops|).active <==> forall i :: 0 <= i < |ops| ==> !EndsScan(s, ops, i)
    ensures Upto(s, ops, |ops|).active ==> Upto(s, ops, |ops|).untilMs == s.untilMs
    decreases |ops|
  {
    assert ops[..|ops|] == ops;
    if ops == [] {
    } else {
      var n := |ops| - 1;
      var before, op := ops[..n], ops[n];
      assert before + [op] == ops && op in ops;
      PrefixLeftAlone(ops, n);
      forall i | 0 <= i < n
        ensures EndsScan(s, before, i) == EndsScan(s, ops, i)
      {
        assert before[..i] == ops[..i];
      }
      ScanEndsAtDeadline(s, before);
      assert before[..n] == before;
      OpsSplit(s, before, op);
      var t := Ops(s, before);
      assert Upto(s, before, |before|) == Upto(s, ops, n) == t && Upto(s, ops, |ops|) == Apply(t, op);
      if t.active {
        OpEndsScan(t, op);
        assert EndsScan(s, ops, n) <==> !Apply(t, op).active;
      } else {
        StaysStopped(t, op);
        var i :| 0 <= i < n && EndsScan(s, before, i);
        assert EndsScan(s, ops, i);
      }
    }
  }

  /** A preamble without a payload, observed by every tick. */
  ghost predicate NothingFollows(os: seq<Seen>) {
    forall i :: 0 <= i < |os| ==> !os[i].batchActive && !os[i].payloadReady
  }

  /** A preamble that nothing follows holds the receiver for exactly PREAMBLE_RECOVERY_US: every tick
      before is spent waiting on the same channel, and the tick that reaches it is back in RX. */
  lemma {:induction false} PreambleNeverHangs(s: Scan, os: seq<Seen>)
    requires ScanInv(s) && s.radio == Preamble && NothingFollows(os)
    requires (s.pre + |os|) * GRANULARITY_US <= PREAMBLE_RECOVERY_US && os != []
    ensures if (s.pre + |os|) * GRANULARITY_US < PREAMBLE_RECOVERY_US
            then Ticks(s, os) == s.(tick := 0, pre := s.pre + |os|)
            else Ticks(s, os).radio == Rx
  {
    var k := |os| - 1;
    if k == 0 {
      assert Ticks(s, os[..0]) == s;
    } else {
      PreambleNeverHangs(s, os[..k]);
    }
  }

  // ---------------------------------------------------------------- back to listening

  /** The radio states a receiver without an active batch comes back from by itself. */
  predicate Receiving(s: Scan) {
    s.radio == Rx || s.radio == Preamble || s.radio == Payload
  }

  /** The tick finds a received frame: in PAYLOAD without TXREADY, or with a payload ready after a
      preamble. */
  predicate ReceivesFrame(s: Scan, o: Seen) {
    !o.batchActive && ((s.radio == Payload && !o.txReady) || (s.radio == Preamble && o.payloadReady))
  }

  /** A tick that receives a frame listens again on the same channel, with a whole dwell ahead; a tick in
      PAYLOAD that finds TXREADY listens again with everything else as it was. */
  lemma FrameEndsInRx(s: Scan, o: Seen)
    requires ScanInv(s) && !o.batchActive
    ensures ReceivesFrame(s, o) ==> TickerCounter(s, o) == s.(radio := Rx, tick := 0, pre := 0)
    ensures s.radio == Payload && o.txReady ==> TickerCounter(s, o) == s.(radio := Rx)
  {
  }

  /** A payload noticed while a scan listens stays on the channel too, with a whole dwell ahead. */
  lemma PayloadKeepsChannel(s: Scan, o: Seen)
    requires ScanInv(s) && s.active && s.radio == Rx
    requires !o.batchActive && o.payloadReady && o.freshIrq && o.nowMs < s.untilMs
    ensures TickerCounter(s, o) == s.(tick := 0, pre := 0)
  {
  }

  /** While a batch is active, and in any state but these three, a tick changes nothing. */
  lemma TickLeavesOthers(s: Scan, o: Seen)
    requires ScanInv(s) && (o.batchActive || !Receiving(s))
    ensures TickerCounter(s, o) == s
  {
  }

  ghost predicate NoBatch(os: seq<Seen>) {
    forall i :: 0 <= i < |os| ==> !os[i].batchActive
  }

  /** One tick closer to listening: in RX, or one tick further in the preamble guard. */
  lemma TickComesBack(s: Scan, o: Seen)
    requires ScanInv(s) && !o.batchActive && Receiving(s)
    ensures var t := TickerCounter(s, o);
      t.radio == Rx || (s.radio == Preamble && t.radio == Preamble && t.pre == s.pre + 1 && t.pre < 15)
  {
  }

  lemma {:induction false} GuardCounts(s: Scan, os: seq<Seen>)
    requires ScanInv(s) && Receiving(s) && NoBatch(os)
    ensures var t := Ticks(s, os);
      t.radio == Rx || os == [] || (t.radio == Preamble && |os| <= t.pre && t.pre < 15)
  {
    if os != [] {
      var k := |os| - 1;
      GuardCounts(s, os[..k]);
      var t := Ticks(s, os[..k]);
      assert k == 0 ==> os[..k] == [];
      TickComesBack(t, os[k]);
    }
  }

  lemma {:induction false} OthersStay(s: Scan, os: seq<Seen>)
    requires ScanInv(s) && !Receiving(s)
    ensures Ticks(s, os) == s
  {
    if os != [] {
      OthersStay(s, os[..|os| - 1]);
    }
  }

  /** Without a batch and without interrupts, any 15 or more ticks, whatever they see, leave the receiver
      in RX, exactly if it is in RX, PREAMBLE or PAYLOAD to begin with. */
  lemma BackInRxIff(s: Scan, os: seq<Seen>)
    requires ScanInv(s) && NoBatch(os) && |os| >= 15
    ensures Ticks(s, os).radio == Rx <==> Receiving(s)
  {
    if Receiving(s) {
      GuardCounts(s, os);
    } else {
      OthersStay(s, os);
    }
  }

  /** So the deadline of a scan is always reached: of any 16 ticks at or past it one has ended the scan. */
  lemma DeadlineIsReached(s: Scan, os: seq<Seen>)
    requires ScanInv(s) && Receiving(s) && NoBatch(os) && |os| >= 16
    requires forall i :: 0 <= i < |os| ==> os[i].nowMs >= s.untilMs
    ensures !Ticks(s, os).active
  {
    var k := |os| - 1;
    assert NoBatch(os[..k]);
    GuardCounts(s, os[..k]);
    DeadlineKept(s, os[..k]);
    if Ticks(s, os[..k]).active {
      assert Ticks(s, os[..k]).radio == Rx;
    }
  }

  lemma {:induction false} DeadlineKept(s: Scan, os: seq<Seen>)
    requires ScanInv(s)
    ensures Ticks(s, os).active ==> Ticks(s, os).untilMs == s.untilMs
    ensures !s.active ==> !Ticks(s, os).active
  {
    if os != [] {
      DeadlineKept(s, os[..|os| - 1]);
    }
  }

  /** A scan begins on the first channel with a whole dwell ahead. Its dwell is as asked, the scan's own by
      default, and, with several channels to visit, never the normal one, unless that is the scan's own. */
  lemma ScanBegins(s: Scan, windowMs: nat, dwellUs: nat, nowMs: nat)
    requires s.channels != []
    ensures var t := StartTwoWScan(s, windowMs, dwellUs, nowMs);
      && t.active && t.untilMs == nowMs + windowMs && t.numFreqs == |s.channels|
      && t.idx == 0 && t.carrier == s.channels[0] && t.tick == 0 && t.pre == 0 && t.radio == Rx
      && (t.dwellUs == dwellUs || t.dwellUs == 2700)
      && (dwellUs != 0 && dwellUs != s.normalUs ==> t.dwellUs == dwellUs)
      && (dwellUs == 0 ==> t.dwellUs == 2700)
      && (|s.channels| > 1 && s.normalUs != 2700 ==> t.dwellUs != s.normalUs)
  {
  }

  /** start() listens on the first channel without a scan, with the dwell asked for or 13.52 ms. */
  lemma StartListens(s: Scan, channels: seq<nat>, scanTimeUs: nat)
    requires channels != []
    ensures var t := Start(s, channels, scanTimeUs);
      && !t.active && t.channels == channels && t.idx == 0 && t.numFreqs == 1 && t.carrier == channels[0] && t.radio == Rx
      && t.dwellUs == t.normalUs == if scanTimeUs == 0 then 13520 else scanTimeUs
  {
  }

  // ---------------------------------------------------------------- batches and the scan

  /** What startQueuedSend saves about the scan it interrupts. */
  datatype Saved = Saved(again: bool, untilMs: nat, dwellUs: nat)

  function Save(s: Scan, nowMs: nat): Saved {
    var again := s.active && s.untilMs > nowMs;
    Saved(again, if again then s.untilMs else 0, if s.dwellUs != 0 then s.dwellUs else TWOW_SCAN_INTERVAL_US)
  }

  /** Sending a packet tunes the carrier to its frequency, unless that is 0. */
  function Tuned(s: Scan, frequency: nat): Scan {
    if frequency != 0 then s.(carrier := frequency) else s
  }

  /** The receiver's part of the end-of-batch section. */
  function EndOfBatch(s: Scan, saved: Saved, listen: bool, nowMs: nat): Scan {
    if saved.again && saved.untilMs > nowMs then StartTwoWScan(s, saved.untilMs - nowMs, saved.dwellUs, nowMs)
    else if listen then StartTwoWScan(s, TWOW_SCAN_WINDOW_MS, TWOW_SCAN_INTERVAL_US, nowMs)
    else if s.active then StopTwoWScan(s)
    else s.(radio := Rx)
  }

  /** After a batch a scan runs exactly when it was resumed or the batch asked to listen. */
  lemma ScanAfterBatch(s: Scan, saved: Saved, listen: bool, nowMs: nat)
    requires ScanInv(s)
    ensures var t := EndOfBatch(s, saved, listen, nowMs);
            && ScanInv(t) && t.radio == Rx
            && (t.active <==> (saved.again && saved.untilMs > nowMs) || listen)
  {
  }
}
