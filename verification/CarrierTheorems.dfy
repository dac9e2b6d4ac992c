/** Where a batch leaves the receiver. Only the scan branches of the end-of-batch section tune it back
    to a channel of its own. */
module CarrierTheorems {
  import opened RadioTypes
  import opened RadioCalls
  import T = TxProtocol
  import C = TxCalls
  import S = ScanProtocol

  /** The receiver is tuned to the channel it takes itself to be on. */
  predicate OnChannel(s: S.Scan) {
    s.idx < |s.channels| && s.carrier == s.channels[s.idx]
  }

  /** The carrier after sending a batch: the last frequency in it that is set. */
  function LastFrequency(b: Batch, carrier: nat): nat {
    if b == [] then carrier
    else if b[|b| - 1].frequency != 0 then b[|b| - 1].frequency
    else LastFrequency(b[..|b| - 1], carrier)
  }

  /** Everything that can happen while a batch is on air, except that a scan is started or stopped. */
  predicate During(call: Call) {
    call.Send? || call.Ticker? || call.Callback? || (call.Receive? && (call.op.OpTick? || call.op.OpIrq?))
  }

  /** The batch on air stays on air through all the calls. */
  ghost predicate StaysOnAir(r: Radio, calls: seq<Call>)
    requires IsRun(r, calls)
    decreases |calls|
  {
    calls != [] ==> During(calls[0]) && !EndsBatch(r, calls[0]) && StaysOnAir(Called(r, calls[0]), calls[1..])
  }

  /** The batch `b`, begun by a receiver in state `s`, is on air. */
  ghost predicate Carrying(r: Radio, b: Batch, s: S.Scan) {
    && S.ScanInv(r.scan) && r.tx.batchActive && r.tx.counter < |r.tx.active| == |b|
    && (forall i :: 0 <= i < |b| ==> r.tx.active[i].frequency == b[i].frequency)
    && r.tx.listen == HasKeyTransfer(b)
    && r.scan.active == s.active && r.scan.channels == s.channels && r.scan.idx == s.idx
    && (r.saved.again ==> r.scan.active)
    && (|b| <= MAX_BATCH ==> r.scan.carrier == LastFrequency(b[..r.tx.counter + 1], s.carrier))
  }

  lemma NextFrequency(b: Batch, k: nat, carrier: nat)
    requires k < |b|
    ensures LastFrequency(b[..k + 1], carrier)
         == if b[k].frequency != 0 then b[k].frequency else LastFrequency(b[..k], carrier)
  {
    assert b[..k + 1][..k] == b[..k];
  }

  lemma BatchBegun(r: Radio, nowUs: nat, nowMs: nat)
    requires C.CanClaim(r.tx) && r.tx.queue[0] != [] && S.ScanInv(r.scan)
    ensures Carrying(Started(r, nowUs, nowMs), r.tx.queue[0], r.scan)
  {
    NextFrequency(r.tx.queue[0], 0, r.scan.carrier);
  }

  lemma RepeatedCarrying(r: Radio, nowUs: nat, sentFlag: bool, accepted: bool, b: Batch, s: S.Scan)
    requires Carrying(r, b, s) && T.Completed(r.tx, nowUs, sentFlag) && r.tx.active[r.tx.counter].repeats > 0
    ensures Carrying(Emitted(r, T.TickStep(r.tx, nowUs, sentFlag, accepted)), b, s)
  {
    NextFrequency(b, r.tx.counter, s.carrier);
  }

  lemma AdvancedCarrying(r: Radio, nowUs: nat, nowMs: nat, b: Batch, s: S.Scan)
    requires Carrying(r, b, s) && (r.tx.counter + 1) % 256 != |b|
    ensures Carrying(Advanced(r, nowUs, nowMs), b, s)
  {
    hide C.Started, C.Ended, Started, Ended, LastFrequency, HasKeyTransfer;
    var k := (r.tx.counter + 1) % 256;
    if |b| <= MAX_BATCH {
      NextFrequency(b, k, s.carrier);
    }
  }

  lemma CallCarrying(r: Radio, call: Call, b: Batch, s: S.Scan)
    requires Carrying(r, b, s) && Enabled(r, call) && During(call) && !EndsBatch(r, call)
    ensures Carrying(Called(r, call), b, s)
  {
    match call
    case Ticker(nowUs, nowMs, sentFlag, accepted) =>
      hide Emitted, Advanced, LastFrequency, T.TickStep, HasKeyTransfer;
      if T.Completed(r.tx, nowUs, sentFlag) {
        if r.tx.active[r.tx.counter].repeats > 0 {
          RepeatedCarrying(r, nowUs, sentFlag, accepted, b, s);
        } else {
          AdvancedCarrying(r.(tx := T.HandOver(r.tx, accepted).(complete := true)), nowUs, nowMs, b, s);
        }
      }
    case Send(batch, nowUs, nowMs) =>
    case Callback =>
    case Receive(op) =>
  }

  lemma {:induction false} RunCarrying(r: Radio, calls: seq<Call>, b: Batch, s: S.Scan)
    requires Carrying(r, b, s) && IsRun(r, calls) && StaysOnAir(r, calls)
    ensures Carrying(After(r, calls), b, s)
    decreases |calls|
  {
    if calls != [] {
      CallCarrying(r, calls[0], b, s);
      hide Carrying;
      RunCarrying(Called(r, calls[0]), calls[1..], b, s);
    }
  }

  /** A scan was running when the batch began, the batch asks to listen, or the last frequency set in it,
      and otherwise the carrier it found, is the receiver's channel. */
  predicate TunesBack(b: Batch, s: S.Scan)
    requires s.idx < |s.channels|
  {
    s.active || HasKeyTransfer(b) || LastFrequency(b, s.carrier) == s.channels[s.idx]
  }

  lemma OverOnChannel(r: Radio, last: Call, b: Batch, s: S.Scan)
    requires Carrying(r, b, s) && S.ScanInv(s) && EndsBatch(r, last)
    ensures BatchOver(r, last).scan.radio == Rx
    ensures OnChannel(BatchOver(r, last).scan) <==> TunesBack(b, s)
  {
    assert b[..r.tx.counter + 1] == b;
  }

  /** At the end of every batch, whatever is sent, received or called back while it is on air, the
      receiver is on its own channel exactly on that condition. */
  lemma OnChannelAfterBatch(r: Radio, nowUs: nat, nowMs: nat, calls: seq<Call>, last: Call)
    requires C.CanClaim(r.tx) && r.tx.queue[0] != [] && S.ScanInv(r.scan)
    requires var r1 := Started(r, nowUs, nowMs);
             IsRun(r1, calls) && StaysOnAir(r1, calls) && EndsBatch(After(r1, calls), last)
    ensures OnChannel(BatchOver(After(Started(r, nowUs, nowMs), calls), last).scan) <==> TunesBack(r.tx.queue[0], r.scan)
  {
    var r1 := Started(r, nowUs, nowMs);
    BatchBegun(r, nowUs, nowMs);
    RunCarrying(r1, calls, r.tx.queue[0], r.scan);
    OverOnChannel(After(r1, calls), last, r.tx.queue[0], r.scan);
  }

  /** A batch sent while nothing is under way leaves the receiver on its channel exactly on that
      condition, if no other batch follows. */
  lemma OnChannelAfterSend(r: Radio, b: Batch, nowUs: nat, nowMs: nat, calls: seq<Call>, last: Call)
    requires C.BetweenCalls(r.tx) && !r.tx.batchActive && r.tx.queue == [] && r.tx.radio != Tx
    requires S.ScanInv(r.scan) && b != []
    requires var r1 := Called(r, Send(b, nowUs, nowMs));
             && IsRun(r1, calls) && StaysOnAir(r1, calls)
             && Enabled(After(r1, calls), last) && EndsBatch(After(r1, calls), last) && After(r1, calls).tx.queue == []
    ensures OnChannel(Called(After(Called(r, Send(b, nowUs, nowMs)), calls), last).scan) <==> TunesBack(b, r.scan)
  {
    var q := r.(tx := T.Queued(r.tx, b));
    assert q.tx.queue[0] == b;
    OnChannelAfterBatch(q, nowUs, nowMs, calls, last);
    var s := After(Started(q, nowUs, nowMs), calls);
    CallEndsBatch(s, last);
    NothingToStart(s, last);
  }

  lemma NothingToStart(s: Radio, last: Call)
    requires EndsBatch(s, last) && s.tx.queue == []
    ensures Started(BatchOver(s, last), last.nowUs, last.nowMs) == BatchOver(s, last)
  {
  }

  // ---------------------------------------------------------------- a plain batch

  lemma OneMore(r: Radio, call: Call, calls: seq<Call>)
    requires Enabled(r, call) && IsRun(Called(r, call), calls)
    ensures IsRun(r, [call] + calls) && After(r, [call] + calls) == After(Called(r, call), calls)
  {
    assert ([call] + calls)[1..] == calls;
  }

  /** From power-up, one plain packet on any other frequency leaves the receiver off its channel. */
  lemma PlainSendLeavesChannel(channels: seq<nat>, frequency: nat) returns (calls: seq<Call>)
    requires 0 < |channels| <= 255 && frequency != 0 && frequency != channels[0]
    ensures IsRun(POWER_UP, calls)
    ensures var r := After(POWER_UP, calls);
            && S.ScanInv(r.scan) && !r.scan.active && r.scan.radio == Rx && !r.tx.batchActive && r.tx.queue == []
            && r.scan.carrier == frequency && !OnChannel(r.scan)
  {
    var p := Packet(0, [], 0, 35, frequency);
    var send, tick := Send([p], 0, 0), Ticker(0, 0, true, true);
    var r1 := Called(POWER_UP, Begin(channels, 0));
    var r2 := Called(r1, send);
    assert r2.tx.active == [p] && r2.tx.counter == 0 && r2.tx.attached && r2.scan.carrier == frequency;
    assert EndsBatch(r2, tick);
    CallEndsBatch(r2, tick);
    NothingToStart(r2, tick);
    assert After(Called(r2, tick), []) == Called(r2, tick);
    OneMore(r2, tick, []);
    OneMore(r1, send, [tick] + []);
    OneMore(POWER_UP, Begin(channels, 0), [send] + ([tick] + []));
    calls := [Begin(channels, 0)] + ([send] + ([tick] + []));
  }

  /** And there it stays, through any number of ticks and interrupts: without a scan, hopping is off. */
  lemma {:induction false} StaysOffChannel(r: Radio, calls: seq<Call>)
    requires S.ScanInv(r.scan) && !r.scan.active && !r.tx.batchActive && !OnChannel(r.scan)
    requires IsRun(r, calls) && forall i :: 0 <= i < |calls| ==> During(calls[i]) && !calls[i].Send? && !calls[i].Ticker?
    ensures After(r, calls).scan.carrier == r.scan.carrier && !OnChannel(After(r, calls).scan)
    decreases |calls|
  {
    if calls != [] {
      OffChannelStep(r, calls[0]);
      StaysOffChannel(Called(r, calls[0]), calls[1..]);
    }
  }

  lemma OffChannelStep(r: Radio, call: Call)
    requires S.ScanInv(r.scan) && !r.scan.active && !r.tx.batchActive && !OnChannel(r.scan)
    requires Enabled(r, call) && During(call) && !call.Send? && !call.Ticker?
    ensures var t := Called(r, call);
            && S.ScanInv(t.scan) && !t.scan.active && !t.tx.batchActive && !OnChannel(t.scan)
            && t.scan.carrier == r.scan.carrier
  {
  }
}
