/** The transmit engine as a concurrent protocol: every atomic step any task, timer callback or
    interrupt can take, and what holds after every interleaving of them. */
module TxProtocol {
  import opened RadioTypes

  // ---------------------------------------------------------------- state and steps

  /** Where the one `startQueuedSend` call that won a batch stands after its mutex section. */
  datatype Starter = NoStarter | Claimed | Prepared

  /** Where the timer task stands in `onTxTicker`. */
  datatype TickerPc = Resting | HandedOver | Leaving(listen: bool) | Left

  datatype TxState = TxState(
    started: bool,               // start() has set scan_freqs
    queue: seq<Batch>,           // sendQueue
    active: Batch,               // packets2send
    counter: nat,                // txCounter
    complete: bool,              // txComplete
    batchActive: bool,           // txBatchActive
    radio: RadioState,           // radioState
    listen: bool,                // currentBatchHas2W
    startedAtUs: nat,            // txStartedAtUs
    attached: bool,              // Sender is attached
    pending: nat,                // startQueuedSend calls before their mutex section
    starter: Starter,
    ticker: TickerPc,
    callbacks: seq<Packet>,      // callbackQueue
    held: Option<Packet>,        // packet the callback task works on
    freed: multiset<nat>,        // deleted packets
    submitted: seq<Batch>,       // history: batches in queue order
    air: seq<AirFrame>)          // history: frames written to the radio

  datatype Step =
    | Start
    | Submit(batch: Batch)
    | Enter
    | Prepare
    | Transmit(nowUs: nat)
    | TxDone
    | Receiver(newState: RadioState)
    | Tick(nowUs: nat, sentFlag: bool, accepted: bool)
    | Advance(nowUs: nat)
    | Leave
    | Restart
    | TakeCallback
    | FreeCallback

  const INIT: TxState :=
    TxState(false, [], [], 0, false, false, Idle, false, 0, false, 0, NoStarter, Resting, [], None, multiset{}, [], [])

  /** Which steps can be taken. That txCounter names a packet holds in every reachable state in which
      the other guard does (CounterInBounds). */
  predicate Enabled(s: TxState, step: Step) {
    match step
    case Start => true
    case Submit(_) => true
    case Enter => s.pending > 0
    case Prepare => s.starter == Claimed
    case Transmit(_) => s.starter == Prepared && s.counter < |s.active|
    case TxDone => s.batchActive
    case Receiver(newState) => newState in {Rx, Preamble, Payload}
    case Tick(nowUs, _, _) => s.attached && s.ticker == Resting && s.startedAtUs <= nowUs && s.counter < |s.active|
    case Advance(_) => s.ticker == HandedOver && s.counter < |s.active|
    case Leave => s.ticker.Leaving?
    case Restart => s.ticker == Left
    case TakeCallback => s.held == None && s.callbacks != []
    case FreeCallback => s.held.Some?
  }

  /** `queueSend`. */
  function Queued(s: TxState, batch: Batch): TxState {
    if batch == [] then s else s.(queue := s.queue + [batch], submitted := s.submitted + [batch])
  }

  /** The mutex section of `startQueuedSend`. */
  function Claim(s: TxState): TxState {
    if s.batchActive || s.radio == Tx || s.active != [] || s.queue == [] then s
    else s.(active := s.queue[0], queue := s.queue[1..], counter := 0, complete := false,
            batchActive := true, starter := Claimed)
  }

  /** Write the current packet to the FIFO and switch to TX. */
  function Emit(s: TxState, nowUs: nat, long: bool): TxState
    requires s.counter < |s.active|
  {
    s.(air := s.air + [AirFrame(s.active[s.counter].frame, long)], startedAtUs := nowUs)
  }

  predicate Completed(s: TxState, nowUs: nat, sentFlag: bool) {
    s.complete || sentFlag || nowUs - s.startedAtUs > TXDONE_TIMEOUT_US
  }

  /** `sent`: the callback queue takes the packet over, or it is deleted. */
  function HandOver(s: TxState, accepted: bool): TxState
    requires s.counter < |s.active|
  {
    var p := s.active[s.counter];
    if accepted then s.(callbacks := s.callbacks + [p]) else s.(freed := s.freed + multiset{p.id})
  }

  /** `packet->repeat--`. */
  function Repeated(s: TxState): TxState
    requires s.counter < |s.active| && s.active[s.counter].repeats > 0
  {
    var p := s.active[s.counter];
    s.(active := s.active[s.counter := p.(repeats := p.repeats - 1)])
  }

  /** `onTxTicker` up to and including `sent`. */
  function TickStep(s: TxState, nowUs: nat, sentFlag: bool, accepted: bool): TxState
    requires s.counter < |s.active|
  {
    var p := s.active[s.counter];
    if !Completed(s, nowUs, sentFlag) then s
    else if p.repeats > 0 then
      Emit(Repeated(s).(complete := false, radio := Tx), nowUs, false)
    else
      HandOver(s, accepted).(complete := true, ticker := HandedOver)
  }

  /** `onTxTicker` after `sent`: the next packet, or the end of the batch. */
  function AdvanceStep(s: TxState, nowUs: nat): TxState
    requires s.counter < |s.active|
  {
    var next := s.(counter := (s.counter + 1) % 256);
    if next.counter == |s.active| then
      next.(attached := false, active := [], listen := false, batchActive := false, ticker := Leaving(s.listen))
    else
      Emit(next.(complete := false, radio := Tx, ticker := Resting), nowUs, false)
  }

  function Next(s: TxState, step: Step): TxState
    requires Enabled(s, step)
  {
    match step
    case Start => s.(started := true, radio := Rx)
    case Submit(batch) => Queued(s, batch).(pending := s.pending + 1)
    case Enter => Claim(s.(pending := s.pending - 1))
    case Prepare => s.(starter := Prepared, listen := HasKeyTransfer(s.active), radio := Tx)
    case Transmit(nowUs) => Emit(s.(starter := NoStarter, attached := true), nowUs, true)
    case TxDone => s.(complete := true)
    case Receiver(newState) => s.(radio := newState)
    case Tick(nowUs, sentFlag, accepted) => TickStep(s, nowUs, sentFlag, accepted)
    case Advance(nowUs) => AdvanceStep(s, nowUs)
    case Leave => s.(ticker := Left, radio := if s.ticker.listen && !s.started then s.radio else Rx)
    case Restart => Claim(s.(ticker := Resting))
    case TakeCallback => s.(held := Some(s.callbacks[0]), callbacks := s.callbacks[1..])
    case FreeCallback => s.(held := None, freed := s.freed + multiset{s.held.value.id})
  }

  // ---------------------------------------------------------------- what should go on air

  function Times(payload: seq<bv8>, n: nat): (r: seq<seq<bv8>>) {
    if n == 0 then [] else [payload] + Times(payload, n - 1)
  }

  /** Every payload of a batch in order, each `repeat + 1` times. */
  function Payloads(b: Batch): (r: seq<seq<bv8>>) {
    if b == [] then [] else Times(b[0].frame, b[0].repeats + 1) + Payloads(b[1..])
  }

  function Short(payloads: seq<seq<bv8>>): seq<AirFrame> {
    seq(|payloads|, i requires 0 <= i < |payloads| => AirFrame(payloads[i], false))
  }

  /** A batch as it should sound: the long preamble on its first transmission only. */
  function Sounded(b: Batch): seq<AirFrame> {
    var ps := Payloads(b);
    seq(|ps|, i requires 0 <= i < |ps| => AirFrame(ps[i], i == 0))
  }

  function SoundedAll(bs: seq<Batch>): seq<AirFrame> {
    if bs == [] then [] else Sounded(bs[0]) + SoundedAll(bs[1..])
  }

  lemma {:induction false} SoundedAllAppend(bs: seq<Batch>, b: Batch)
    ensures SoundedAll(bs + [b]) == SoundedAll(bs) + Sounded(b)
  {
    if bs != [] {
      assert (bs + [b])[1..] == bs[1..] + [b];
      SoundedAllAppend(bs[1..], b);
    } else {
      assert [b][1..] == [];
    }
  }

  // ---------------------------------------------------------------- what is still to come

  /** Frames of the active batch not yet written to the radio. */
  function BatchRest(s: TxState): seq<AirFrame> {
    if !s.batchActive || s.counter >= |s.active| then []
    else if s.starter != NoStarter then Sounded(s.active)
    else Short((if s.ticker == HandedOver then [] else Times(s.active[s.counter].frame, s.active[s.counter].repeats))
               + Payloads(s.active[s.counter + 1..]))
  }

  /** Everything written so far, then everything still to come. */
  function Promise(s: TxState): seq<AirFrame> {
    s.air + BatchRest(s) + SoundedAll(s.queue)
  }

  // ---------------------------------------------------------------- ownership

  function Count(ps: seq<Packet>, id: nat): nat {
    if ps == [] then 0 else (if ps[0].id == id then 1 else 0) + Count(ps[1..], id)
  }

  function QueueCount(bs: seq<Batch>, id: nat): nat {
    if bs == [] then 0 else Count(bs[0], id) + QueueCount(bs[1..], id)
  }

  lemma {:induction false} CountAppend(ps: seq<Packet>, p: Packet, id: nat)
    ensures Count(ps + [p], id) == Count(ps, id) + if p.id == id then 1 else 0
  {
    if ps != [] {
      assert (ps + [p])[1..] == ps[1..] + [p];
      CountAppend(ps[1..], p, id);
    } else {
      assert [p][1..] == [];
    }
  }

  lemma {:induction false} QueueCountAppend(bs: seq<Batch>, b: Batch, id: nat)
    ensures QueueCount(bs + [b], id) == QueueCount(bs, id) + Count(b, id)
  {
    if bs != [] {
      assert (bs + [b])[1..] == bs[1..] + [b];
      QueueCountAppend(bs[1..], b, id);
    } else {
      assert [b][1..] == [];
    }
  }

  /** Packets of the active batch the engine still owns: handing one over gives it away before
      `txCounter` moves on, and `packets2send` keeps dangling pointers behind `txCounter`. */
  function Unsent(s: TxState): Batch {
    if !s.batchActive || s.counter >= |s.active| then []
    else s.active[if s.ticker == HandedOver then s.counter + 1 else s.counter..]
  }

  function Holds(held: Option<Packet>, id: nat): nat {
    if held.Some? && held.value.id == id then 1 else 0
  }

  /** How often a packet occurs over all the places it can be in. */
  function Places(s: TxState, id: nat): nat {
    QueueCount(s.queue, id) + Count(Unsent(s), id) + Count(s.callbacks, id) + Holds(s.held, id) + s.freed[id]
  }

  // ---------------------------------------------------------------- invariants

  ghost predicate Control(s: TxState) {
    && (forall i :: 0 <= i < |s.queue| ==> s.queue[i] != [])
    && (s.batchActive <==> s.active != [])
    && s.counter <= MAX_BATCH && (s.batchActive ==> s.counter < |s.active|)
    && (s.attached <==> s.batchActive && s.starter == NoStarter)
    && (s.starter != NoStarter ==> s.batchActive && s.counter == 0 && s.ticker != HandedOver)
    && (s.ticker == HandedOver ==> s.attached && s.active[s.counter].repeats == 0)
  }

  /** No batch is longer than txCounter can count. */
  ghost predicate Fits(s: TxState) {
    |s.active| <= MAX_BATCH && forall i :: 0 <= i < |s.queue| ==> |s.queue[i]| <= MAX_BATCH
  }

  /** Written so far plus still to come is exactly what was submitted, in queue order. */
  ghost predicate Trace(s: TxState) {
    Promise(s) == SoundedAll(s.submitted)
  }

  ghost predicate Owned(s: TxState) {
    forall id :: Places(s, id) == QueueCount(s.submitted, id)
  }

  /** Nobody waits for a wake-up that will not come. */
  ghost predicate WillBeServed(s: TxState) {
    s.queue != [] ==> s.batchActive || s.ticker.Leaving? || s.ticker == Left || s.pending > 0
  }

  ghost predicate Awake(s: TxState) {
    && WillBeServed(s)
    && (s.radio == Tx && !s.batchActive ==> s.ticker.Leaving?)
  }

  ghost predicate Inv(s: TxState) {
    Control(s) && Fits(s) && Trace(s) && Owned(s)
  }

  /** A submission of a batch longer than txCounter can count. */
  predicate Oversized(step: Step) {
    step.Submit? && |step.batch| > MAX_BATCH
  }

  lemma ClaimControl(s: TxState)
    requires Control(s)
    ensures Control(Claim(s))
  {
  }

  lemma TickControl(s: TxState, nowUs: nat, sentFlag: bool, accepted: bool)
    requires Control(s) && s.attached && s.ticker == Resting
    ensures Control(TickStep(s, nowUs, sentFlag, accepted))
  {
  }

  lemma AdvanceControl(s: TxState, nowUs: nat)
    requires Control(s) && s.ticker == HandedOver
    ensures Control(AdvanceStep(s, nowUs))
  {
  }

  lemma SubmitControl(s: TxState, batch: Batch)
    requires Control(s)
    ensures Control(Next(s, Submit(batch)))
  {
  }

  lemma OtherControl(s: TxState, step: Step)
    requires Control(s) && Enabled(s, step)
    requires step.Start? || step.Prepare? || step.Transmit? || step.TxDone? || step.Receiver? || step.Leave? ||
      step.TakeCallback? || step.FreeCallback?
    ensures Control(Next(s, step))
  {
  }

  lemma StepControl(s: TxState, step: Step)
    requires Control(s) && Enabled(s, step)
    ensures Control(Next(s, step))
  {
    match step
    case Enter => ClaimControl(s.(pending := s.pending - 1));
    case Restart => ClaimControl(s.(ticker := Resting));
    case Tick(nowUs, sentFlag, accepted) => TickControl(s, nowUs, sentFlag, accepted);
    case Advance(nowUs) => AdvanceControl(s, nowUs);
    case Submit(batch) => SubmitControl(s, batch);
    case Start => OtherControl(s, step);
    case Transmit(_) => OtherControl(s, step);
    case Prepare => OtherControl(s, step);
    case TxDone => OtherControl(s, step);
    case Receiver(_) => OtherControl(s, step);
    case Leave => OtherControl(s, step);
    case TakeCallback => OtherControl(s, step);
    case FreeCallback => OtherControl(s, step);
  }

  lemma StepFits(s: TxState, step: Step)
    requires Control(s) && Fits(s) && Enabled(s, step) && !Oversized(step)
    ensures Fits(Next(s, step))
  {
  }

  /** A ticker that leaves the radio in TX although no batch is active any more: before start(),
      startTwoWScan returns early, so nothing puts the radio back into RX after a key-transfer batch. */
  predicate GoesDeaf(s: TxState, step: Step)
    requires Enabled(s, step)
  {
    step.Leave? && s.ticker.listen && !s.started && s.radio == Tx && !s.batchActive
  }

  /** That is the only step that can lose a wake-up. */
  lemma StepAwake(s: TxState, step: Step)
    requires Control(s) && Enabled(s, step) && Awake(s)
    ensures Awake(Next(s, step)) <==> !GoesDeaf(s, step)
  {
  }

  // ---------------------------------------------------------------- the trace, step by step

  lemma SubmitTrace(s: TxState, batch: Batch)
    requires Trace(s)
    ensures Trace(Next(s, Submit(batch)))
  {
    var t := Next(s, Submit(batch));
    assert BatchRest(t) == BatchRest(s);
    if batch != [] {
      SoundedAllAppend(s.queue, batch);
      SoundedAllAppend(s.submitted, batch);
      Regroup(s.air + BatchRest(s), SoundedAll(s.queue), Sounded(batch));
    }
  }

  lemma Regroup(a: seq<AirFrame>, b: seq<AirFrame>, c: seq<AirFrame>)
    ensures a + (b + c) == (a + b) + c
  {
  }

  lemma ClaimTrace(s: TxState)
    requires Control(s)
    ensures Promise(Claim(s)) == Promise(s)
  {
    hide Sounded, Short, Times, Payloads;
    var t := Claim(s);
    if t != s {
      assert BatchRest(s) == [] && BatchRest(t) == Sounded(s.queue[0]);
      assert SoundedAll(s.queue) == Sounded(s.queue[0]) + SoundedAll(t.queue);
    }
  }

  /** Writing one frame moves it from the rest to the air. */
  lemma EmitTrace(air: seq<AirFrame>, frame: AirFrame, rest: seq<AirFrame>, queue: seq<AirFrame>)
    ensures (air + [frame]) + rest + queue == air + ([frame] + rest) + queue
  {
  }

  lemma ShortCons(payload: seq<bv8>, rest: seq<seq<bv8>>)
    ensures Short([payload] + rest) == [AirFrame(payload, false)] + Short(rest)
  {
  }

  /** The payloads of a batch split at its first transmission. */
  lemma PayloadsCons(b: Batch)
    requires b != []
    ensures Payloads(b) == [b[0].frame] + (Times(b[0].frame, b[0].repeats) + Payloads(b[1..]))
  {
  }

  lemma SoundedCons(b: Batch)
    requires b != []
    ensures Sounded(b) == [AirFrame(b[0].frame, true)] + Short(Times(b[0].frame, b[0].repeats) + Payloads(b[1..]))
  {
    PayloadsCons(b);
  }

  lemma TransmitTrace(s: TxState, nowUs: nat)
    requires Control(s) && s.starter == Prepared
    ensures var t := Next(s, Transmit(nowUs));
            Promise(t) == Promise(s) && BatchRest(s) == [t.air[|s.air|]] + BatchRest(t)
  {
    var t := Next(s, Transmit(nowUs));
    SoundedCons(s.active);
    assert BatchRest(s) == [AirFrame(s.active[0].frame, true)] + BatchRest(t);
    EmitTrace(s.air, AirFrame(s.active[0].frame, true), BatchRest(t), SoundedAll(s.queue));
  }

  /** The rest of the batch when packet `c` is sent `n` more times before the ones after it. */
  function RestAt(active: Batch, c: nat, n: nat): seq<AirFrame>
    requires c < |active|
  {
    Short(Times(active[c].frame, n) + Payloads(active[c + 1..]))
  }

  lemma RestAtStep(active: Batch, c: nat, n: nat)
    requires c < |active| && n > 0
    ensures RestAt(active, c, n) == [AirFrame(active[c].frame, false)] + RestAt(active, c, n - 1)
  {
    var p := active[c].frame;
    var rest := Payloads(active[c + 1..]);
    assert Times(p, n) + rest == [p] + (Times(p, n - 1) + rest);
    ShortCons(p, Times(p, n - 1) + rest);
  }

  lemma RestAtNext(active: Batch, c: nat)
    requires c + 1 < |active|
    ensures Short(Payloads(active[c + 1..]))
         == [AirFrame(active[c + 1].frame, false)] + RestAt(active, c + 1, active[c + 1].repeats)
  {
    var rest := active[c + 1..];
    assert rest[1..] == active[c + 2..];
    PayloadsCons(rest);
    ShortCons(rest[0].frame, Times(rest[0].frame, rest[0].repeats) + Payloads(rest[1..]));
  }

  lemma RestAtUpdate(active: Batch, c: nat, p: Packet, n: nat)
    requires c < |active| && p.frame == active[c].frame
    ensures RestAt(active[c := p], c, n) == RestAt(active, c, n)
  {
    assert active[c := p][c + 1..] == active[c + 1..];
  }

  lemma TickTrace(s: TxState, nowUs: nat, sentFlag: bool, accepted: bool)
    requires Control(s) && s.attached && s.ticker == Resting
    ensures var t := TickStep(s, nowUs, sentFlag, accepted);
            && Promise(t) == Promise(s)
            && BatchRest(s) == (if t.air == s.air then BatchRest(t) else [t.air[|s.air|]] + BatchRest(t))
  {
    var t := TickStep(s, nowUs, sentFlag, accepted);
    var p := s.active[s.counter];
    assert BatchRest(s) == RestAt(s.active, s.counter, p.repeats);
    if Completed(s, nowUs, sentFlag) {
      if p.repeats == 0 {
        assert Times(p.frame, 0) == [];
        assert BatchRest(t) == BatchRest(s);
      } else {
        RestAtStep(s.active, s.counter, p.repeats);
        RestAtUpdate(s.active, s.counter, t.active[s.counter], p.repeats - 1);
        assert BatchRest(t) == RestAt(s.active, s.counter, p.repeats - 1);
        EmitTrace(s.air, AirFrame(p.frame, false), BatchRest(t), SoundedAll(s.queue));
      }
    }
  }

  lemma AdvanceIsNext(s: TxState, nowUs: nat)
    requires s.counter + 1 < |s.active| <= MAX_BATCH
    ensures AdvanceStep(s, nowUs)
         == Emit(s.(counter := s.counter + 1, complete := false, radio := Tx, ticker := Resting), nowUs, false)
  {
  }

  lemma AdvanceRest(s: TxState, nowUs: nat)
    requires Control(s) && s.ticker == HandedOver && s.counter + 1 < |s.active| <= MAX_BATCH
    ensures BatchRest(s) == [AirFrame(s.active[s.counter + 1].frame, false)] + BatchRest(AdvanceStep(s, nowUs))
  {
    hide AdvanceStep, Short, Times, Payloads, Sounded;
    AdvanceIsNext(s, nowUs);
    var rest := Payloads(s.active[s.counter + 1..]);
    assert [] + rest == rest;
    RestAtNext(s.active, s.counter);
  }

  lemma AdvanceTraceNext(s: TxState, nowUs: nat)
    requires Control(s) && s.ticker == HandedOver && s.counter + 1 < |s.active| <= MAX_BATCH
    ensures var t := AdvanceStep(s, nowUs);
            Promise(t) == Promise(s) && BatchRest(s) == [t.air[|s.air|]] + BatchRest(t)
  {
    hide AdvanceStep, BatchRest, SoundedAll;
    AdvanceIsNext(s, nowUs);
    AdvanceRest(s, nowUs);
    EmitTrace(s.air, AirFrame(s.active[s.counter + 1].frame, false), BatchRest(AdvanceStep(s, nowUs)), SoundedAll(s.queue));
  }

  lemma AdvanceTraceEnd(s: TxState, nowUs: nat)
    requires Control(s) && Fits(s) && s.ticker == HandedOver && s.counter + 1 == |s.active|
    ensures var t := AdvanceStep(s, nowUs);
            Promise(t) == Promise(s) && BatchRest(s) == BatchRest(t) && !t.batchActive
  {
    hide Sounded, SoundedAll;
    var t := AdvanceStep(s, nowUs);
    assert s.active[s.counter + 1..] == [];
    assert BatchRest(s) == [];
    assert t.air == s.air && t.queue == s.queue && BatchRest(t) == [];
  }

  lemma AdvanceTrace(s: TxState, nowUs: nat)
    requires Control(s) && Fits(s) && s.ticker == HandedOver
    ensures Promise(AdvanceStep(s, nowUs)) == Promise(s)
  {
    if s.counter + 1 < |s.active| {
      AdvanceTraceNext(s, nowUs);
    } else {
      AdvanceTraceEnd(s, nowUs);
    }
  }

  /** The other steps neither write to the radio nor change what is to come. */
  lemma OtherTrace(s: TxState, step: Step)
    requires Control(s) && Enabled(s, step)
    requires step.Start? || step.Prepare? || step.TxDone? || step.Receiver? || step.Leave? || step.TakeCallback? || step.FreeCallback?
    ensures var t := Next(s, step);
            Promise(t) == Promise(s) && BatchRest(t) == BatchRest(s) && t.submitted == s.submitted
  {
    hide Sounded, SoundedAll, Short, Payloads, Times;
  }

  lemma EnterTrace(s: TxState)
    requires Control(s) && s.pending > 0
    ensures Promise(Next(s, Enter)) == Promise(s)
  {
    hide Sounded, SoundedAll, Short, Times, Payloads;
    var t := s.(pending := s.pending - 1);
    assert BatchRest(t) == BatchRest(s);
    ClaimTrace(t);
  }

  lemma RestartTrace(s: TxState)
    requires Control(s) && s.ticker == Left
    ensures Promise(Next(s, Restart)) == Promise(s)
  {
    hide Sounded, SoundedAll, Short, Times, Payloads;
    var t := s.(ticker := Resting);
    assert BatchRest(t) == BatchRest(s);
    ClaimTrace(t);
  }

  /** Every step but a submission keeps the promise, and none but a submission changes what was
      submitted. */
  lemma StepPromise(s: TxState, step: Step)
    requires Control(s) && Fits(s) && Enabled(s, step) && !step.Submit?
    ensures Promise(Next(s, step)) == Promise(s) && Next(s, step).submitted == s.submitted
  {
    match step
    case Enter => EnterTrace(s);
    case Restart => RestartTrace(s);
    case Transmit(nowUs) => TransmitTrace(s, nowUs);
    case Tick(nowUs, sentFlag, accepted) => TickTrace(s, nowUs, sentFlag, accepted);
    case Advance(nowUs) => AdvanceTrace(s, nowUs);
    case Start => OtherTrace(s, step);
    case Prepare => OtherTrace(s, step);
    case TxDone => OtherTrace(s, step);
    case Receiver(_) => OtherTrace(s, step);
    case Leave => OtherTrace(s, step);
    case TakeCallback => OtherTrace(s, step);
    case FreeCallback => OtherTrace(s, step);
  }

  lemma StepTrace(s: TxState, step: Step)
    requires Control(s) && Fits(s) && Trace(s) && Enabled(s, step)
    ensures Trace(Next(s, step))
  {
    if step.Submit? {
      SubmitTrace(s, step.batch);
    } else {
      StepPromise(s, step);
    }
  }

  // ---------------------------------------------------------------- ownership, step by step

  lemma TickPlaces(s: TxState, nowUs: nat, sentFlag: bool, accepted: bool, id: nat)
    requires Control(s) && s.attached && s.ticker == Resting
    ensures Places(TickStep(s, nowUs, sentFlag, accepted), id) == Places(s, id)
  {
    var t := TickStep(s, nowUs, sentFlag, accepted);
    var p := s.active[s.counter];
    assert Unsent(s)[1..] == s.active[s.counter + 1..];
    if t.ticker == HandedOver {
      CountAppend(s.callbacks, p, id);
    } else {
      assert Unsent(t)[1..] == s.active[s.counter + 1..];
    }
  }

  lemma ClaimPlaces(s: TxState, id: nat)
    requires Control(s)
    ensures Places(Claim(s), id) == Places(s, id)
  {
    if Claim(s) != s {
      assert Unsent(Claim(s)) == s.queue[0];
    }
  }

  lemma AdvancePlaces(s: TxState, nowUs: nat, id: nat)
    requires Control(s) && Fits(s) && s.ticker == HandedOver
    ensures Places(AdvanceStep(s, nowUs), id) == Places(s, id)
  {
    hide Count, QueueCount;
    assert Unsent(AdvanceStep(s, nowUs)) == Unsent(s);
  }

  lemma SubmitPlaces(s: TxState, batch: Batch, id: nat)
    ensures var t := Next(s, Submit(batch));
            Places(t, id) - Places(s, id) == QueueCount(t.submitted, id) - QueueCount(s.submitted, id)
  {
    hide QueueCount, Count;
    var t := Next(s, Submit(batch));
    assert Unsent(t) == Unsent(s);
    if batch != [] {
      QueueCountAppend(s.queue, batch, id);
      QueueCountAppend(s.submitted, batch, id);
    }
  }

  lemma OtherPlaces(s: TxState, step: Step, id: nat)
    requires Control(s) && Enabled(s, step)
    requires step.Start? || step.Prepare? || step.Transmit? || step.TxDone? || step.Receiver? || step.Leave? ||
      step.TakeCallback? || step.FreeCallback?
    ensures Places(Next(s, step), id) == Places(s, id)
  {
    hide QueueCount;
    assert Unsent(Next(s, step)) == Unsent(s);
  }

  lemma EnterPlaces(s: TxState, id: nat)
    requires Control(s) && s.pending > 0
    ensures Places(Next(s, Enter), id) == Places(s, id)
  {
    hide Count, QueueCount;
    var t := s.(pending := s.pending - 1);
    assert Unsent(t) == Unsent(s);
    ClaimPlaces(t, id);
  }

  lemma RestartPlaces(s: TxState, id: nat)
    requires Control(s) && s.ticker == Left
    ensures Places(Next(s, Restart), id) == Places(s, id)
  {
    hide Count, QueueCount;
    var t := s.(ticker := Resting);
    assert Unsent(t) == Unsent(s);
    ClaimPlaces(t, id);
  }

  /** Every step but a submission keeps every packet's number of places. */
  lemma StepPlaces(s: TxState, step: Step, id: nat)
    requires Control(s) && Fits(s) && Enabled(s, step) && !step.Submit?
    ensures Places(Next(s, step), id) == Places(s, id)
  {
    match step
    case Enter => EnterPlaces(s, id);
    case Restart => RestartPlaces(s, id);
    case Tick(nowUs, sentFlag, accepted) => TickPlaces(s, nowUs, sentFlag, accepted, id);
    case Advance(nowUs) => AdvancePlaces(s, nowUs, id);
    case Start => OtherPlaces(s, step, id);
    case Transmit(_) => OtherPlaces(s, step, id);
    case Prepare => OtherPlaces(s, step, id);
    case TxDone => OtherPlaces(s, step, id);
    case Receiver(_) => OtherPlaces(s, step, id);
    case Leave => OtherPlaces(s, step, id);
    case TakeCallback => OtherPlaces(s, step, id);
    case FreeCallback => OtherPlaces(s, step, id);
  }

  lemma StepOwned(s: TxState, step: Step)
    requires Control(s) && Fits(s) && Owned(s) && Enabled(s, step)
    ensures Owned(Next(s, step))
  {
    forall id ensures Places(Next(s, step), id) == QueueCount(Next(s, step).submitted, id) {
      assert Places(s, id) == QueueCount(s.submitted, id);
      if step.Submit? {
        SubmitPlaces(s, step.batch, id);
      } else {
        StepPlaces(s, step, id);
        StepPromise(s, step);
      }
    }
  }

  lemma StepInv(s: TxState, step: Step)
    requires Inv(s) && Enabled(s, step) && !Oversized(step)
    ensures Inv(Next(s, step))
  {
    StepTrace(s, step);
    StepOwned(s, step);
    StepControl(s, step);
    StepFits(s, step);
  }
}
