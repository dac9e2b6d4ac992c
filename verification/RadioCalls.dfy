/** Whole calls on the radio object, transmit engine and receiver together, and what becomes of a
    scan that transmit batches interrupt. The methods of the radio object are proved against these. */
module RadioCalls {
  import opened RadioTypes
  import T = TxProtocol
  import X = TxTheorems
  import C = TxCalls
  import S = ScanProtocol

  /** The transmit engine, the receiver, and what is remembered of the interrupted scan. */
  datatype Radio = Radio(tx: T.TxState, scan: S.Scan, saved: S.Saved)

  /** One call of startQueuedSend: the call that wins a batch saves the scan and takes the radio. */
  function Started(r: Radio, nowUs: nat, nowMs: nat): Radio {
    if C.CanClaim(r.tx) && r.tx.queue[0] != [] then
      Radio(C.Started(r.tx, nowUs), S.Tuned(r.scan.(radio := Tx), r.tx.queue[0][0].frequency), S.Save(r.scan, nowMs))
    else r
  }

  /** The end-of-batch section. */
  function Ended(r: Radio, nowMs: nat): Radio {
    Radio(C.Ended(r.tx), S.EndOfBatch(r.scan, r.saved, r.tx.listen, nowMs), S.Saved(false, 0, r.saved.dwellUs))
  }

  /** Write the current packet once more, or the next one. */
  function Emitted(r: Radio, tx: T.TxState): Radio
    requires tx.counter < |tx.active|
  {
    Radio(tx, S.Tuned(r.scan.(radio := Tx), tx.active[tx.counter].frequency), r.saved)
  }

  function Advanced(r: Radio, nowUs: nat, nowMs: nat): Radio
    requires r.tx.counter < |r.tx.active|
  {
    var t := r.tx.(counter := (r.tx.counter + 1) % 256);
    if t.counter == |t.active| then Started(Ended(r.(tx := t), nowMs), nowUs, nowMs)
    else Emitted(r, C.Advanced(r.tx, nowUs))
  }

  /** One call of onTxTicker. */
  function Ticked(r: Radio, nowUs: nat, nowMs: nat, sentFlag: bool, accepted: bool): Radio
    requires r.tx.counter < |r.tx.active|
  {
    if !T.Completed(r.tx, nowUs, sentFlag) then r
    else if r.tx.active[r.tx.counter].repeats > 0 then Emitted(r, T.TickStep(r.tx, nowUs, sentFlag, accepted))
    else Advanced(r.(tx := T.HandOver(r.tx, accepted).(complete := true)), nowUs, nowMs)
  }

  /** One round of the callback task. */
  function Dispatched(s: T.TxState): T.TxState {
    if s.callbacks == [] then s
    else s.(callbacks := s.callbacks[1..], freed := s.freed + multiset{s.callbacks[0].id})
  }

  /** With a packet waiting, that is the run in which it is taken off the queue and then deleted. */
  lemma DispatchedIsRun(s: T.TxState)
    requires s.held == None && s.callbacks != []
    ensures X.IsRun(s, [T.TakeCallback, T.FreeCallback])
    ensures X.After(s, [T.TakeCallback, T.FreeCallback]) == Dispatched(s)
  {
    var t := T.Next(s, T.TakeCallback);
    X.Prepend(t, T.FreeCallback, []);
    X.Prepend(s, T.TakeCallback, [T.FreeCallback] + []);
    assert [T.TakeCallback] + ([T.FreeCallback] + []) == [T.TakeCallback, T.FreeCallback];
  }

  datatype Call =
    | Begin(channels: seq<nat>, scanTimeUs: nat)    // start()
    | Send(batch: Batch, nowUs: nat, nowMs: nat)
    | Ticker(nowUs: nat, nowMs: nat, sentFlag: bool, accepted: bool)
    | Callback
    | Receive(op: S.Op)              // anything the receive side does

  ghost predicate Enabled(r: Radio, call: Call) {
    match call
    case Begin(channels, _) => 0 < |channels| <= 255
    case Send(_, _, _) => true
    case Ticker(nowUs, _, sentFlag, accepted) => T.Enabled(r.tx, T.Tick(nowUs, sentFlag, accepted))
    case Callback => true
    case Receive(op) =>
      S.ScanInv(r.scan) && S.OpAllowed(op) && (op.OpTick? ==> op.seen.batchActive == r.tx.batchActive)
  }

  ghost function Called(r: Radio, call: Call): Radio
    requires Enabled(r, call)
  {
    match call
    case Begin(channels, scanTimeUs) =>
      Radio(r.tx.(started := true, radio := Rx), S.Start(r.scan, channels, scanTimeUs), r.saved)
    case Send(batch, nowUs, nowMs) => Started(r.(tx := T.Queued(r.tx, batch)), nowUs, nowMs)
    case Ticker(nowUs, nowMs, sentFlag, accepted) => Ticked(r, nowUs, nowMs, sentFlag, accepted)
    case Callback => r.(tx := Dispatched(r.tx))
    case Receive(op) =>
      var s := S.Apply(r.scan, op);
      Radio(r.tx.(radio := s.radio, started := s.channels != []), s, r.saved)
  }

  ghost predicate IsRun(r: Radio, calls: seq<Call>)
    decreases |calls|
  {
    calls != [] ==> Enabled(r, calls[0]) && IsRun(Called(r, calls[0]), calls[1..])
  }

  ghost function After(r: Radio, calls: seq<Call>): Radio
    requires IsRun(r, calls)
    decreases |calls|
  {
    if calls == [] then r else After(Called(r, calls[0]), calls[1..])
  }

  /** Both views of the radio agree, and a radio that was not started has no scan. */
  predicate Agrees(r: Radio) {
    && r.tx.radio == r.scan.radio
    && r.tx.started == (r.scan.channels != [])
    && (r.scan.channels == [] ==> !r.scan.active && !r.saved.again)
  }

  ghost predicate Settled(r: Radio) {
    Agrees(r) && C.NoEmptyBatch(r.tx)
  }

  lemma StartedSettled(r: Radio, nowUs: nat, nowMs: nat)
    requires Settled(r)
    ensures Settled(Started(r, nowUs, nowMs))
  {
  }

  lemma EndedSettled(r: Radio, nowMs: nat)
    requires Settled(r)
    ensures Settled(Ended(r, nowMs))
  {
  }

  /** `t` is `s` with a packet on air. */
  predicate OnAir(s: T.TxState, t: T.TxState) {
    t.counter < |t.active| && t.radio == Tx && t.queue == s.queue && t.started == s.started
  }

  lemma EmittedSettled(r: Radio, tx: T.TxState)
    requires Settled(r) && OnAir(r.tx, tx)
    ensures Settled(Emitted(r, tx))
  {
  }

  lemma NextOnAir(s: T.TxState, nowUs: nat)
    requires s.counter < |s.active| && (s.counter + 1) % 256 != |s.active|
    ensures OnAir(s, C.Advanced(s, nowUs))
  {
    hide C.Started, C.Ended;
  }

  lemma AgainOnAir(s: T.TxState, nowUs: nat, sentFlag: bool, accepted: bool)
    requires s.counter < |s.active| && T.Completed(s, nowUs, sentFlag) && s.active[s.counter].repeats > 0
    ensures OnAir(s, T.TickStep(s, nowUs, sentFlag, accepted))
  {
  }

  lemma AdvancedSettled(r: Radio, nowUs: nat, nowMs: nat)
    requires Settled(r) && r.tx.counter < |r.tx.active|
    ensures Settled(Advanced(r, nowUs, nowMs))
  {
    hide Started, Ended, Emitted, C.Advanced;
    var t := r.(tx := r.tx.(counter := (r.tx.counter + 1) % 256));
    if t.tx.counter == |t.tx.active| {
      EndedSettled(t, nowMs);
      StartedSettled(Ended(t, nowMs), nowUs, nowMs);
    } else {
      NextOnAir(r.tx, nowUs);
      EmittedSettled(r, C.Advanced(r.tx, nowUs));
    }
  }

  lemma TickedSettled(r: Radio, nowUs: nat, nowMs: nat, sentFlag: bool, accepted: bool)
    requires Settled(r) && r.tx.counter < |r.tx.active|
    ensures Settled(Ticked(r, nowUs, nowMs, sentFlag, accepted))
  {
    hide Advanced, Emitted, T.TickStep;
    if T.Completed(r.tx, nowUs, sentFlag) && r.tx.active[r.tx.counter].repeats > 0 {
      AgainOnAir(r.tx, nowUs, sentFlag, accepted);
      EmittedSettled(r, T.TickStep(r.tx, nowUs, sentFlag, accepted));
    } else {
      AdvancedSettled(r.(tx := T.HandOver(r.tx, accepted).(complete := true)), nowUs, nowMs);
    }
  }

  lemma CallSettled(r: Radio, call: Call)
    requires Settled(r) && Enabled(r, call)
    ensures Settled(Called(r, call))
  {
    hide Started, Ticked;
    match call
    case Begin(_, _) =>
    case Send(batch, nowUs, nowMs) => StartedSettled(r.(tx := T.Queued(r.tx, batch)), nowUs, nowMs);
    case Ticker(nowUs, nowMs, sentFlag, accepted) => TickedSettled(r, nowUs, nowMs, sentFlag, accepted);
    case Callback =>
    case Receive(op) =>
  }

  /** The calls do to the transmit engine what its own calls do. */
  lemma SameStart(r: Radio, nowUs: nat, nowMs: nat)
    ensures Started(r, nowUs, nowMs).tx == C.Started(r.tx, nowUs)
  {
  }

  lemma SameAdvance(r: Radio, nowUs: nat, nowMs: nat)
    requires r.tx.counter < |r.tx.active|
    ensures Advanced(r, nowUs, nowMs).tx == C.Advanced(r.tx, nowUs)
  {
    hide Started, C.Started, C.Ended, T.Emit;
    var t := r.(tx := r.tx.(counter := (r.tx.counter + 1) % 256));
    SameStart(Ended(t, nowMs), nowUs, nowMs);
  }

  lemma SameTick(r: Radio, nowUs: nat, nowMs: nat, sentFlag: bool, accepted: bool)
    requires r.tx.counter < |r.tx.active|
    ensures Ticked(r, nowUs, nowMs, sentFlag, accepted).tx == C.Ticked(r.tx, nowUs, sentFlag, accepted)
  {
    hide Advanced, C.Advanced, T.Emit, T.Repeated;
    SameAdvance(r.(tx := T.HandOver(r.tx, accepted).(complete := true)), nowUs, nowMs);
  }

  lemma CallBetweenCalls(r: Radio, call: Call)
    requires C.BetweenCalls(r.tx) && Enabled(r, call)
    ensures C.BetweenCalls(Called(r, call).tx)
  {
    hide Started, Ticked;
    match call
    case Begin(_, _) =>
    case Send(batch, nowUs, nowMs) =>
      C.SubmitQueues(r.tx, batch);
      C.StartedBetweenCalls(T.Queued(r.tx, batch), nowUs);
      SameStart(r.(tx := T.Queued(r.tx, batch)), nowUs, nowMs);
    case Ticker(nowUs, nowMs, sentFlag, accepted) =>
      C.TickedBetweenCalls(r.tx, nowUs, sentFlag, accepted);
      SameTick(r, nowUs, nowMs, sentFlag, accepted);
    case Callback =>
    case Receive(op) =>
  }

  const POWER_UP: Radio := Radio(T.INIT, S.UNSTARTED, S.Saved(false, 0, S.TWOW_SCAN_INTERVAL_US))

  lemma {:induction false} RunReady(r: Radio, calls: seq<Call>)
    requires Settled(r) && C.BetweenCalls(r.tx) && IsRun(r, calls)
    ensures Settled(After(r, calls)) && C.BetweenCalls(After(r, calls).tx)
    decreases |calls|
  {
    if calls != [] {
      CallSettled(r, calls[0]);
      CallBetweenCalls(r, calls[0]);
      hide *;
      RunReady(Called(r, calls[0]), calls[1..]);
    }
  }

  /** In every run of calls from power-up both views of the radio agree, no empty batch is queued, and
      txCounter names a packet whenever the ticker is attached: all that the methods ask of a caller. */
  lemma CallsAreReady(calls: seq<Call>)
    requires IsRun(POWER_UP, calls)
    ensures var r := After(POWER_UP, calls); Settled(r) && (r.tx.attached ==> r.tx.counter < |r.tx.active|)
  {
    RunReady(POWER_UP, calls);
  }

  // ---------------------------------------------------------------- a scan through batches

  /** The clock is before `untilMs`, and the call neither starts nor stops a scan by itself. */
  predicate Before(call: Call, untilMs: nat) {
    match call
    case Begin(_, _) => false
    case Send(_, _, nowMs) => nowMs < untilMs
    case Ticker(_, nowMs, _, _) => nowMs < untilMs
    case Callback => true
    case Receive(op) => S.LeftAlone(op) && (op.OpTick? ==> op.seen.nowMs < untilMs)
  }

  /** The scan goes on, and a batch on air remembers it. */
  ghost predicate Scanning(r: Radio, channels: seq<nat>, untilMs: nat, dwellUs: nat) {
    && S.ScanInv(r.scan) && r.scan.active
    && r.scan.channels == channels && r.scan.untilMs == untilMs && r.scan.dwellUs == dwellUs
    && (r.tx.attached ==> r.tx.batchActive)
    && (r.tx.batchActive ==> r.saved == S.Saved(true, untilMs, dwellUs))
  }

  lemma StartedScanning(r: Radio, nowUs: nat, nowMs: nat, channels: seq<nat>, untilMs: nat, dwellUs: nat)
    requires Scanning(r, channels, untilMs, dwellUs) && nowMs < untilMs
    ensures Scanning(Started(r, nowUs, nowMs), channels, untilMs, dwellUs)
  {
  }

  lemma EndedScanning(r: Radio, nowMs: nat, channels: seq<nat>, untilMs: nat, dwellUs: nat)
    requires Scanning(r, channels, untilMs, dwellUs) && r.tx.batchActive && nowMs < untilMs
    ensures Scanning(Ended(r, nowMs), channels, untilMs, dwellUs)
  {
  }

  lemma AdvancedScanning(r: Radio, nowUs: nat, nowMs: nat, channels: seq<nat>, untilMs: nat, dwellUs: nat)
    requires Scanning(r, channels, untilMs, dwellUs) && r.tx.batchActive && r.tx.counter < |r.tx.active|
    requires nowMs < untilMs
    ensures Scanning(Advanced(r, nowUs, nowMs), channels, untilMs, dwellUs)
  {
    hide Started, Ended, C.Started, C.Ended;
    var t := r.(tx := r.tx.(counter := (r.tx.counter + 1) % 256));
    if t.tx.counter == |t.tx.active| {
      EndedScanning(t, nowMs, channels, untilMs, dwellUs);
      StartedScanning(Ended(t, nowMs), nowUs, nowMs, channels, untilMs, dwellUs);
    }
  }

  lemma TickedScanning(r: Radio, call: Call, channels: seq<nat>, untilMs: nat, dwellUs: nat)
    requires Scanning(r, channels, untilMs, dwellUs) && call.Ticker? && Enabled(r, call) && Before(call, untilMs)
    ensures Scanning(Called(r, call), channels, untilMs, dwellUs)
  {
    var t := r.(tx := T.HandOver(r.tx, call.accepted).(complete := true));
    AdvancedScanning(t, call.nowUs, call.nowMs, channels, untilMs, dwellUs);
    hide Advanced;
  }

  lemma CallScanning(r: Radio, call: Call, channels: seq<nat>, untilMs: nat, dwellUs: nat)
    requires Scanning(r, channels, untilMs, dwellUs) && Enabled(r, call) && Before(call, untilMs)
    ensures Scanning(Called(r, call), channels, untilMs, dwellUs)
  {
    match call
    case Begin(_, _) =>
    case Send(batch, nowUs, nowMs) =>
      StartedScanning(r.(tx := T.Queued(r.tx, batch)), nowUs, nowMs, channels, untilMs, dwellUs);
    case Ticker(_, _, _, _) => TickedScanning(r, call, channels, untilMs, dwellUs);
    case Callback =>
    case Receive(op) => S.ApplyKeepsInv(r.scan, op);
  }

  lemma {:induction false} RunScanning(r: Radio, calls: seq<Call>, channels: seq<nat>, untilMs: nat, dwellUs: nat)
    requires Scanning(r, channels, untilMs, dwellUs)
    requires IsRun(r, calls) && forall i :: 0 <= i < |calls| ==> Before(calls[i], untilMs)
    ensures Scanning(After(r, calls), channels, untilMs, dwellUs)
    decreases |calls|
  {
    if calls != [] {
      CallScanning(r, calls[0], channels, untilMs, dwellUs);
      RunScanning(Called(r, calls[0]), calls[1..], channels, untilMs, dwellUs);
    }
  }

  /** However many batches are sent in between, back to back or not, a scan goes on over the same
      channels with the same deadline and dwell up to that deadline. */
  lemma InterruptedScanResumes(r: Radio, calls: seq<Call>)
    requires S.ScanInv(r.scan) && r.scan.active && !r.tx.batchActive && !r.tx.attached
    requires IsRun(r, calls) && forall i :: 0 <= i < |calls| ==> Before(calls[i], r.scan.untilMs)
    ensures var t := After(r, calls).scan;
            && S.ScanInv(t) && t.active && t.numFreqs == |t.channels|
            && t.channels == r.scan.channels && t.untilMs == r.scan.untilMs && t.dwellUs == r.scan.dwellUs
  {
    RunScanning(r, calls, r.scan.channels, r.scan.untilMs, r.scan.dwellUs);
  }

  /** The ticker call hands the last packet of the batch over. */
  predicate EndsBatch(r: Radio, call: Call) {
    && call.Ticker? && r.tx.counter < |r.tx.active| && T.Completed(r.tx, call.nowUs, call.sentFlag)
    && r.tx.active[r.tx.counter].repeats == 0 && (r.tx.counter + 1) % 256 == |r.tx.active|
  }

  /** Starting the next batch leaves the scan alone but for carrier and state. */
  lemma StartLeavesScan(r: Radio, nowUs: nat, nowMs: nat)
    ensures var t := Started(r, nowUs, nowMs).scan; t == r.scan.(carrier := t.carrier, radio := t.radio)
  {
  }

  /** The radio when the end-of-batch section of such a call is over, before the next batch begins. */
  function BatchOver(r: Radio, last: Call): Radio
    requires EndsBatch(r, last)
  {
    var t := T.HandOver(r.tx, last.accepted).(complete := true);
    Ended(r.(tx := t.(counter := (t.counter + 1) % 256)), last.nowMs)
  }

  lemma CallEndsBatch(r: Radio, last: Call)
    requires Enabled(r, last) && EndsBatch(r, last)
    ensures Called(r, last) == Started(BatchOver(r, last), last.nowUs, last.nowMs)
  {
    hide Started, Ended, Emitted;
  }

  /** The same run, ended by the last packet of a batch: the scan goes on exactly if its time is not
      up, otherwise a key transfer opens a new window, and nothing else does. The next batch may
      already be on air. */
  lemma BatchEndDecides(r: Radio, calls: seq<Call>, last: Call)
    requires S.ScanInv(r.scan) && r.scan.active && !r.tx.batchActive && !r.tx.attached
    requires IsRun(r, calls) && forall i :: 0 <= i < |calls| ==> Before(calls[i], r.scan.untilMs)
    requires Enabled(After(r, calls), last) && EndsBatch(After(r, calls), last)
    ensures var s, t := After(r, calls), Called(After(r, calls), last).scan;
            && (t.active <==> last.nowMs < r.scan.untilMs || s.tx.listen)
            && (t.active ==> t.channels == r.scan.channels && t.numFreqs == |t.channels|)
            && (last.nowMs < r.scan.untilMs ==> t.untilMs == r.scan.untilMs && t.dwellUs == r.scan.dwellUs)
            && (last.nowMs >= r.scan.untilMs && s.tx.listen ==>
                  t.untilMs == last.nowMs + S.TWOW_SCAN_WINDOW_MS && t.dwellUs == S.TWOW_SCAN_INTERVAL_US)
  {
    RunScanning(r, calls, r.scan.channels, r.scan.untilMs, r.scan.dwellUs);
    var s := After(r, calls);
    CallEndsBatch(s, last);
    StartLeavesScan(BatchOver(s, last), last.nowUs, last.nowMs);
    hide Started, Called;
  }
}
