/** What the transmit engine guarantees over whole runs, for every interleaving of its steps. */
module TxTheorems {
  import opened RadioTypes
  import opened TxProtocol

  ghost predicate IsRun(s: TxState, steps: seq<Step>)
    decreases |steps|
  {
    steps != [] ==> Enabled(s, steps[0]) && IsRun(Next(s, steps[0]), steps[1..])
  }

  ghost function After(s: TxState, steps: seq<Step>): TxState
    requires IsRun(s, steps)
    decreases |steps|
  {
    if steps == [] then s else After(Next(s, steps[0]), steps[1..])
  }

  lemma {:induction false} Concat(s: TxState, xs: seq<Step>, ys: seq<Step>)
    requires IsRun(s, xs) && IsRun(After(s, xs), ys)
    ensures IsRun(s, xs + ys) && After(s, xs + ys) == After(After(s, xs), ys)
    ensures Submissions(xs + ys) == Submissions(xs) + Submissions(ys)
    decreases |xs|
  {
    hide Next, Enabled;
    if xs == [] {
      assert xs + ys == ys;
    } else {
      assert (xs + ys)[1..] == xs[1..] + ys;
      Concat(Next(s, xs[0]), xs[1..], ys);
    }
  }

  lemma Prepend(s: TxState, step: Step, steps: seq<Step>)
    requires Enabled(s, step) && IsRun(Next(s, step), steps)
    ensures IsRun(s, [step] + steps) && After(s, [step] + steps) == After(Next(s, step), steps)
    ensures Submissions([step] + steps) == Submissions([step]) + Submissions(steps)
  {
    assert ([step] + steps)[1..] == steps && [step][1..] == [];
  }

  // ---------------------------------------------------------------- what is submitted

  /** The batches a run submits, in order. */
  function Submissions(steps: seq<Step>): seq<Batch> {
    if steps == [] then [] else Given(steps[0]) + Submissions(steps[1..])
  }

  function Given(step: Step): seq<Batch> {
    if step.Submit? then [step.batch] else []
  }

  /** No batch is longer than txCounter can count. */
  predicate AllFit(bs: seq<Batch>) {
    forall i :: 0 <= i < |bs| ==> |bs[i]| <= MAX_BATCH
  }

  lemma StepSubmitted(s: TxState, step: Step)
    requires Enabled(s, step)
    ensures Next(s, step).submitted
         == if step.Submit? && step.batch != [] then s.submitted + [step.batch] else s.submitted
  {
  }

  lemma StepSubmits(s: TxState, step: Step, more: seq<Batch>, id: nat)
    requires Enabled(s, step)
    ensures QueueCount(Next(s, step).submitted, id) + QueueCount(more, id)
         == QueueCount(s.submitted, id) + QueueCount(Given(step) + more, id)
  {
    StepSubmitted(s, step);
    hide Next, Enabled;
    if step.Submit? {
      QueueCountAppend(s.submitted, step.batch, id);
      assert ([step.batch] + more)[1..] == more;
    } else {
      assert [] + more == more;
    }
  }

  lemma {:induction false} RunSubmits(s: TxState, steps: seq<Step>, id: nat)
    requires IsRun(s, steps)
    ensures QueueCount(After(s, steps).submitted, id) == QueueCount(s.submitted, id) + QueueCount(Submissions(steps), id)
    decreases |steps|
  {
    if steps != [] {
      RunSubmits(Next(s, steps[0]), steps[1..], id);
      StepSubmits(s, steps[0], Submissions(steps[1..]), id);
    }
  }

  lemma RestFits(steps: seq<Step>)
    requires steps != [] && AllFit(Submissions(steps))
    ensures !Oversized(steps[0]) && AllFit(Submissions(steps[1..]))
  {
    var given, rest := Given(steps[0]), Submissions(steps[1..]);
    assert forall i :: 0 <= i < |rest| ==> rest[i] == (given + rest)[|given| + i];
    assert steps[0].Submit? ==> (given + rest)[0] == steps[0].batch;
  }

  lemma {:induction false} PrefixCounts(bs: seq<Batch>, cs: seq<Batch>, id: nat)
    requires bs <= cs
    ensures QueueCount(bs, id) <= QueueCount(cs, id)
  {
    if bs != [] {
      PrefixCounts(bs[1..], cs[1..], id);
    }
  }

  lemma {:induction false} RunKeepsControl(s: TxState, steps: seq<Step>)
    requires Control(s) && IsRun(s, steps)
    ensures Control(After(s, steps))
    decreases |steps|
  {
    if steps != [] {
      StepControl(s, steps[0]);
      RunKeepsControl(Next(s, steps[0]), steps[1..]);
    }
  }

  /** The engine never looks behind its batch: whenever a tick, a first transmission or an advance can
      come, in any run and with batches of any size, txCounter names a packet. */
  lemma CounterInBounds(steps: seq<Step>)
    requires IsRun(INIT, steps)
    ensures var s := After(INIT, steps);
            && s.counter <= MAX_BATCH
            && (s.attached || s.starter != NoStarter || s.ticker == HandedOver ==> s.counter < |s.active|)
  {
    InitInv();
    RunKeepsControl(INIT, steps);
  }

  lemma {:induction false} RunKeepsInv(s: TxState, steps: seq<Step>)
    requires Inv(s) && IsRun(s, steps) && AllFit(Submissions(steps))
    ensures Inv(After(s, steps))
    decreases |steps|
  {
    if steps != [] {
      RestFits(steps);
      StepInv(s, steps[0]);
      RunKeepsInv(Next(s, steps[0]), steps[1..]);
    }
  }

  lemma InitInv()
    ensures Inv(INIT) && Awake(INIT)
  {
  }

  // ---------------------------------------------------------------- trace refinement

  /** What went on air is always a prefix of the submitted batches, in queue order, and all of it
      once the queue is drained. */
  lemma AirFollowsQueue(steps: seq<Step>)
    requires IsRun(INIT, steps) && AllFit(Submissions(steps))
    ensures var s := After(INIT, steps);
            && s.air <= SoundedAll(s.submitted)
            && (s.queue == [] && !s.batchActive ==> s.air == SoundedAll(s.submitted))
  {
    InitInv();
    RunKeepsInv(INIT, steps);
  }

  // ---------------------------------------------------------------- ownership

  /** Distinct packet objects, each submitted once, are each in exactly one place. */
  lemma EachPacketInOnePlace(steps: seq<Step>, id: nat)
    requires IsRun(INIT, steps) && AllFit(Submissions(steps))
    ensures var s := After(INIT, steps);
            && Places(s, id) == QueueCount(Submissions(steps), id)
            && (QueueCount(Submissions(steps), id) <= 1 ==> s.freed[id] <= 1)
  {
    InitInv();
    RunKeepsInv(INIT, steps);
    RunSubmits(INIT, steps, id);
  }

  /** Packet objects a step of the engine dereferences. */
  function Touched(s: TxState, step: Step): set<nat>
    requires Enabled(s, step)
  {
    match step
    case Prepare => set i | 0 <= i < |s.active| :: s.active[i].id
    case Transmit(_) => {s.active[s.counter].id}
    case Tick(_, _, _) => {s.active[s.counter].id}
    case Advance(_) =>
      var next := (s.counter + 1) % 256;
      if next == |s.active| then {} else {s.active[next].id}
    case _ => {}
  }

  lemma {:induction false} MemberCounts(ps: seq<Packet>, i: nat)
    requires i < |ps|
    ensures Count(ps, ps[i].id) >= 1
  {
    if i > 0 {
      MemberCounts(ps[1..], i - 1);
    }
  }

  /** What a step dereferences, the engine still owns. */
  lemma TouchedIsUnsent(s: TxState, step: Step, id: nat)
    requires Control(s) && Fits(s) && Enabled(s, step) && id in Touched(s, step)
    ensures Count(Unsent(s), id) >= 1
  {
    var base := if s.ticker == HandedOver then s.counter + 1 else s.counter;
    var i :| base <= i < |s.active| && s.active[i].id == id;
    assert s.batchActive && Unsent(s) == s.active[base..];
    assert Unsent(s)[i - base] == s.active[i];
    MemberCounts(Unsent(s), i - base);
  }

  /** The packet is not handed over: neither with the callback task nor deleted. */
  predicate NotHandedOver(s: TxState, id: nat) {
    Count(s.callbacks, id) == 0 && Holds(s.held, id) == 0 && s.freed[id] == 0
  }

  /** No step touches a packet after handing it over, and nothing is deleted twice. */
  lemma NeverTouchedAfterHandOver(steps: seq<Step>, step: Step, id: nat)
    requires IsRun(INIT, steps) && AllFit(Submissions(steps))
    requires Enabled(After(INIT, steps), step) && QueueCount(Submissions(steps), id) <= 1
    ensures var s := After(INIT, steps);
            && (id in Touched(s, step) ==> NotHandedOver(s, id))
            && (step.FreeCallback? && s.held.value.id == id ==> Count(Unsent(s), id) == 0 && s.freed[id] == 0)
  {
    EachPacketInOnePlace(steps, id);
    InitInv();
    RunKeepsInv(INIT, steps);
    var s := After(INIT, steps);
    if id in Touched(s, step) {
      TouchedIsUnsent(s, step, id);
    }
  }

  /** The packets handed over and not yet deleted, the one the callback task works on first. */
  function HandedOverYet(s: TxState): seq<Packet> {
    (if s.held.Some? then [s.held.value] else []) + s.callbacks
  }

  /** They are worked off in the order in which they were handed over: a step leaves them alone, adds the
      packet the ticker is at behind them, or deletes the first. */
  lemma CallbacksInOrder(s: TxState, step: Step)
    requires Enabled(s, step)
    ensures var before, after := HandedOverYet(s), HandedOverYet(Next(s, step));
      match step
      case Tick(_, _, accepted) => after == before || (accepted && after == before + [s.active[s.counter]])
      case FreeCallback =>
        before != [] && after == before[1..] && Next(s, step).freed == s.freed + multiset{before[0].id}
      case _ => after == before
  {
    match step
    case Tick(nowUs, sentFlag, accepted) => TickInOrder(s, nowUs, sentFlag, accepted);
    case FreeCallback =>
    case TakeCallback =>
    case _ => OthersKeepOrder(s, step);
  }

  lemma TickHandsOver(s: TxState, nowUs: nat, sentFlag: bool, accepted: bool)
    requires s.counter < |s.active|
    ensures var t := TickStep(s, nowUs, sentFlag, accepted);
      && t.held == s.held
      && (t.callbacks == s.callbacks || (accepted && t.callbacks == s.callbacks + [s.active[s.counter]]))
  {
  }

  lemma TickInOrder(s: TxState, nowUs: nat, sentFlag: bool, accepted: bool)
    requires s.counter < |s.active|
    ensures var before, after := HandedOverYet(s), HandedOverYet(TickStep(s, nowUs, sentFlag, accepted));
            after == before || (accepted && after == before + [s.active[s.counter]])
  {
    TickHandsOver(s, nowUs, sentFlag, accepted);
    hide TickStep;
  }

  lemma EngineKeepsOrder(s: TxState, nowUs: nat)
    ensures Claim(s).callbacks == s.callbacks && Claim(s).held == s.held
    ensures s.counter < |s.active| ==> AdvanceStep(s, nowUs).callbacks == s.callbacks && AdvanceStep(s, nowUs).held == s.held
  {
  }

  lemma OthersKeepOrder(s: TxState, step: Step)
    requires Enabled(s, step) && !step.Tick? && !step.FreeCallback? && !step.TakeCallback?
    ensures Next(s, step).callbacks == s.callbacks && Next(s, step).held == s.held
  {
    hide Claim, AdvanceStep, TickStep;
    match step
    case Enter => EngineKeepsOrder(s.(pending := s.pending - 1), 0);
    case Restart => EngineKeepsOrder(s.(ticker := Resting), 0);
    case Advance(nowUs) => EngineKeepsOrder(s, nowUs);
    case _ =>
  }

  // ---------------------------------------------------------------- serving batches

  /** A packet is on air and the ticker is between two calls. */
  ghost predicate OnAir(s: TxState) {
    Control(s) && s.attached && s.ticker == Resting
  }

  /** Nothing is under way and the radio is not in TX. */
  ghost predicate Free(s: TxState) {
    && Control(s) && s.radio != Tx && s.queue == [] && !s.batchActive && s.ticker == Resting && s.pending == 0
  }

  /** `t` differs from `s` in nothing the transmission of packets leaves alone. */
  predicate SameCallers(s: TxState, t: TxState) {
    && t.submitted == s.submitted && t.queue == s.queue && t.pending == s.pending && t.started == s.started
    && (s.radio == Tx ==> t.radio == Tx)
  }

  predicate SameIds(a: Batch, b: Batch) {
    |a| == |b| && forall i :: 0 <= i < |a| ==> a[i].id == b[i].id
  }

  /** `t` is `s` with the current packet handed over, and the next one on air or the batch over. */
  ghost predicate PacketSent(s: TxState, t: TxState)
    requires s.counter < |s.active|
  {
    && Control(t) && SameCallers(s, t)
    && |t.callbacks| == |s.callbacks| + 1 && s.callbacks == t.callbacks[..|s.callbacks|]
    && t.callbacks[|s.callbacks|].id == s.active[s.counter].id
    && var next := (s.counter + 1) % 256;
    if next == |s.active| then t.ticker == Leaving(s.listen) && !t.batchActive
    else OnAir(t) && t.counter == next && SameIds(t.active, s.active) && t.listen == s.listen && |t.air| > |s.air|
  }

  /** `t` is `s` with one repetition more on air. */
  ghost predicate Repetition(s: TxState, t: TxState)
    requires s.counter < |s.active|
  {
    && OnAir(t) && SameCallers(s, t) && t.callbacks == s.callbacks && t.counter == s.counter
    && SameIds(t.active, s.active) && t.active[t.counter].repeats == s.active[s.counter].repeats - 1
    && t.listen == s.listen && |t.air| == |s.air| + 1
  }

  lemma RepeatTick(s: TxState)
    requires OnAir(s) && s.active[s.counter].repeats > 0
    ensures Enabled(s, Tick(s.startedAtUs, true, true))
    ensures Repetition(s, TickStep(s, s.startedAtUs, true, true))
  {
  }

  lemma SentAfterRepetition(s: TxState, t: TxState, u: TxState)
    requires OnAir(s) && Repetition(s, t) && PacketSent(t, u)
    ensures PacketSent(s, u)
  {
  }

  lemma HandOverTick(s: TxState)
    requires OnAir(s) && s.active[s.counter].repeats == 0
    ensures var t := TickStep(s, s.startedAtUs, true, true);
            && Enabled(s, Tick(s.startedAtUs, true, true)) && Enabled(t, Advance(s.startedAtUs))
            && PacketSent(s, AdvanceStep(t, s.startedAtUs))
  {
  }

  lemma SendPacket(s: TxState) returns (steps: seq<Step>)
    requires OnAir(s)
    ensures IsRun(s, steps) && Submissions(steps) == [] && PacketSent(s, After(s, steps))
    decreases s.active[s.counter].repeats
  {
    assert s.counter < |s.active|;
    var tick, advance := Tick(s.startedAtUs, true, true), Advance(s.startedAtUs);
    var t := TickStep(s, s.startedAtUs, true, true);
    assert Enabled(s, tick) && Next(s, tick) == t;
    if s.active[s.counter].repeats > 0 {
      RepeatTick(s);
      hide SameIds, SameCallers, TickStep, PacketSent, Enabled, Next;
      steps := SendPacket(t);
      SentAfterRepetition(s, t, After(t, steps));
    } else {
      HandOverTick(s);
      Prepend(t, advance, []);
      steps := [advance] + [];
    }
    hide *;
    Prepend(s, tick, steps);
    steps := [tick] + steps;
  }

  /** The rest of a batch that fits, up to the ticker leaving. */
  lemma SendRest(s: TxState) returns (steps: seq<Step>)
    requires OnAir(s) && |s.active| <= MAX_BATCH
    ensures IsRun(s, steps) && Submissions(steps) == []
    ensures var t := After(s, steps);
            Control(t) && SameCallers(s, t) && t.ticker == Leaving(s.listen) && !t.batchActive
    decreases |s.active| - s.counter
  {
    steps := SendPacket(s);
    var t := After(s, steps);
    if t.batchActive {
      var more := SendRest(t);
      Concat(s, steps, more);
      steps := steps + more;
    }
  }

  /** A submitted batch up to its first frame on air. */
  lemma BeginBatch(s: TxState, b: Batch) returns (steps: seq<Step>)
    requires Free(s) && b != []
    ensures IsRun(s, steps) && Submissions(steps) == [b]
    ensures var t := After(s, steps);
            && OnAir(t) && t.active == b && t.counter == 0 && t.listen == HasKeyTransfer(b) && t.radio == Tx
            && t.queue == [] && t.pending == 0 && t.started == s.started
  {
    var s1 := Next(s, Submit(b));
    var s2 := Next(s1, Enter);
    var s3 := Next(s2, Prepare);
    var s4 := Next(s3, Transmit(0));
    StepControl(s, Submit(b));
    StepControl(s1, Enter);
    StepControl(s2, Prepare);
    StepControl(s3, Transmit(0));
    assert OnAir(s4) && s4.active == b;
    hide *;
    Prepend(s3, Transmit(0), []);
    Prepend(s2, Prepare, [Transmit(0)] + []);
    Prepend(s1, Enter, [Prepare] + ([Transmit(0)] + []));
    Prepend(s, Submit(b), [Enter] + ([Prepare] + ([Transmit(0)] + [])));
    steps := [Submit(b)] + ([Enter] + ([Prepare] + ([Transmit(0)] + [])));
  }

  /** A batch that fits is served, and the engine is free again. */
  lemma ServeBatch(s: TxState, b: Batch) returns (steps: seq<Step>)
    requires Free(s) && s.started && 0 < |b| <= MAX_BATCH
    ensures IsRun(s, steps) && Submissions(steps) == [b]
    ensures Free(After(s, steps)) && After(s, steps).started
  {
    var begin := BeginBatch(s, b);
    var t := After(s, begin);
    var rest := SendRest(t);
    var u := After(t, rest);
    var v := Next(u, Leave);
    StepControl(u, Leave);
    StepControl(v, Restart);
    Prepend(v, Restart, []);
    Prepend(u, Leave, [Restart] + []);
    Concat(t, rest, [Leave] + ([Restart] + []));
    Concat(s, begin, rest + ([Leave] + ([Restart] + [])));
    steps := begin + (rest + ([Leave] + ([Restart] + [])));
  }

  /** An empty batch is dropped. */
  lemma DropBatch(s: TxState) returns (steps: seq<Step>)
    requires Free(s) && s.started
    ensures IsRun(s, steps) && Submissions(steps) == [[]]
    ensures Free(After(s, steps)) && After(s, steps).started
  {
    Prepend(Next(s, Submit([])), Enter, []);
    Prepend(s, Submit([]), [Enter] + []);
    steps := [Submit([])] + ([Enter] + []);
  }

  lemma {:induction false} ServeAll(s: TxState, bs: seq<Batch>) returns (steps: seq<Step>)
    requires Free(s) && s.started && AllFit(bs)
    ensures IsRun(s, steps) && Submissions(steps) == bs
    ensures Free(After(s, steps)) && After(s, steps).started
    decreases |bs|
  {
    steps := [];
    if bs != [] {
      var first := [];
      if bs[0] == [] {
        first := DropBatch(s);
      } else {
        first := ServeBatch(s, bs[0]);
      }
      var rest := ServeAll(After(s, first), bs[1..]);
      Concat(s, first, rest);
      steps := first + rest;
    }
  }

  // ---------------------------------------------------------------- batch size

  lemma {:induction false} FirstOversized(bs: seq<Batch>) returns (k: nat)
    requires !AllFit(bs)
    ensures k < |bs| && AllFit(bs[..k]) && |bs[k]| > MAX_BATCH
    decreases |bs|
  {
    var n := |bs| - 1;
    if AllFit(bs[..n]) {
      k := n;
    } else {
      k := FirstOversized(bs[..n]);
      assert bs[..n][..k] == bs[..k];
    }
  }

  lemma StartFrees()
    ensures Enabled(INIT, Start) && Free(Next(INIT, Start)) && Next(INIT, Start).started && Submissions([Start]) == []
  {
  }

  /** The run in which the batches before an oversized one are served and it gets its turn. */
  lemma OversizedOnAir(bs: seq<Batch>) returns (steps: seq<Step>)
    requires !AllFit(bs)
    ensures IsRun(INIT, steps) && Submissions(steps) <= bs
    ensures var s := After(INIT, steps); OnAir(s) && s.counter == 0 && |s.active| > MAX_BATCH
  {
    var k := FirstOversized(bs);
    assert bs[k] != [];
    StartFrees();
    hide *;
    var s := Next(INIT, Start);
    var served := ServeAll(s, bs[..k]);
    var begin := BeginBatch(After(s, served), bs[k]);
    assert bs[..k] + [bs[k]] == bs[..k + 1];
    Concat(s, served, begin);
    Prepend(INIT, Start, served + begin);
    steps := [Start] + (served + begin);
  }

  /** `t` is `s` some packets of an oversized batch later, with at least `n` more frames on air. */
  ghost predicate Later(s: TxState, t: TxState, n: nat) {
    && OnAir(t) && SameIds(t.active, s.active) && t.submitted == s.submitted
    && s.callbacks <= t.callbacks && |t.air| >= |s.air| + n
  }

  /** txCounter after `n` more packets of an oversized batch. */
  function CounterAt(c: nat, n: nat): nat {
    (c + n) % 256
  }

  lemma NextTurn(c: nat, n: nat)
    requires n > 0
    ensures CounterAt(CounterAt(c, 1), n - 1) == CounterAt(c, n)
  {
  }

  lemma NextOnAir(s: TxState, t: TxState)
    requires OnAir(s) && |s.active| > MAX_BATCH && PacketSent(s, t)
    ensures s.counter < |s.active| && OnAir(t) && t.counter == CounterAt(s.counter, 1) && |t.active| == |s.active|
  {
  }

  lemma LaterOnceMore(s: TxState, t: TxState, u: TxState, n: nat)
    requires OnAir(s) && |s.active| > MAX_BATCH && PacketSent(s, t) && Later(t, u, n)
    ensures Later(s, u, n + 1)
  {
  }

  /** An oversized batch goes on and on: `n` packets later txCounter has gone round. */
  lemma {:induction false} GoesRound(s: TxState, n: nat) returns (steps: seq<Step>)
    requires OnAir(s) && |s.active| > MAX_BATCH
    ensures IsRun(s, steps) && Submissions(steps) == []
    ensures Later(s, After(s, steps), n) && After(s, steps).counter == CounterAt(s.counter, n)
    decreases n
  {
    steps := [];
    if n > 0 {
      hide *;
      steps := SendPacket(s);
      var t := After(s, steps);
      NextOnAir(s, t);
      var more := GoesRound(t, n - 1);
      LaterOnceMore(s, t, After(t, more), n - 1);
      NextTurn(s.counter, n);
      Concat(s, steps, more);
      steps := steps + more;
    }
  }

  ghost predicate InOrder(s: TxState) {
    s.air <= SoundedAll(s.submitted)
  }

  /** Whatever the callers submit, it goes on air in order in every run exactly if no batch has more
      than 255 packets: a longer one never lets txCounter reach its size and is repeated for ever. */
  lemma AirFollowsQueueIffFits(bs: seq<Batch>)
    ensures (forall steps :: IsRun(INIT, steps) && Submissions(steps) <= bs ==> InOrder(After(INIT, steps))) <==> AllFit(bs)
  {
    if AllFit(bs) {
      forall steps | IsRun(INIT, steps) && Submissions(steps) <= bs
        ensures InOrder(After(INIT, steps))
      {
        AirFollowsQueue(steps);
      }
    } else {
      var steps := OversizedOnAir(bs);
      var s := After(INIT, steps);
      var more := GoesRound(s, |SoundedAll(s.submitted)| + 1);
      Concat(INIT, steps, more);
      assert !InOrder(After(INIT, steps + more));
    }
  }

  /** No step that can be taken next touches a packet that was handed over. */
  ghost predicate LeavesHandedOverAlone(s: TxState) {
    forall step, id :: Enabled(s, step) && id in Touched(s, step) ==> NotHandedOver(s, id)
  }

  lemma EachLeftAlone(steps: seq<Step>, bs: seq<Batch>)
    requires AllFit(bs) && IsRun(INIT, steps) && Submissions(steps) <= bs && (forall id :: QueueCount(bs, id) <= 1)
    ensures LeavesHandedOverAlone(After(INIT, steps))
  {
    var s := After(INIT, steps);
    forall step, id | Enabled(s, step) && id in Touched(s, step)
      ensures NotHandedOver(s, id)
    {
      PrefixCounts(Submissions(steps), bs, id);
      NeverTouchedAfterHandOver(steps, step, id);
    }
  }

  /** Distinct packets are left alone once handed over, in every run, under the same condition. */
  lemma HandedOverLeftAloneIffFits(bs: seq<Batch>)
    requires forall id :: QueueCount(bs, id) <= 1
    ensures (forall steps :: IsRun(INIT, steps) && Submissions(steps) <= bs ==> LeavesHandedOverAlone(After(INIT, steps)))
            <==> AllFit(bs)
  {
    if AllFit(bs) {
      forall steps | IsRun(INIT, steps) && Submissions(steps) <= bs
        ensures LeavesHandedOverAlone(After(INIT, steps))
      {
        EachLeftAlone(steps, bs);
      }
    } else {
      var steps := OversizedOnAir(bs);
      var more := BackToFirst(After(INIT, steps));
      Concat(INIT, steps, more);
      hide LeavesHandedOverAlone, After, IsRun;
      assert !LeavesHandedOverAlone(After(INIT, steps + more));
    }
  }

  /** A tick that finds its packet with the callback task is not left alone. */
  lemma TouchedAgain(s: TxState, k: nat)
    requires OnAir(s) && k < |s.callbacks| && s.callbacks[k].id == s.active[s.counter].id
    ensures !LeavesHandedOverAlone(s)
  {
    MemberCounts(s.callbacks, k);
    var tick := Tick(s.startedAtUs, true, true);
    var id := s.active[s.counter].id;
    assert Touched(s, tick) == {id};
    assert !NotHandedOver(s, id);
    assert Enabled(s, tick) && id in Touched(s, tick);
  }

  lemma RoundAgain(s: TxState, t: TxState, u: TxState)
    requires OnAir(s) && s.counter == 0 && |s.active| > MAX_BATCH && PacketSent(s, t)
    requires Later(t, u, 255) && u.counter == CounterAt(t.counter, 255)
    ensures !LeavesHandedOverAlone(u)
  {
    assert u.callbacks[|s.callbacks|] == t.callbacks[|s.callbacks|];
    TouchedAgain(u, |s.callbacks|);
  }

  /** After 256 packets the ticker is back at the first one, which is with the callback task. */
  lemma BackToFirst(s: TxState) returns (steps: seq<Step>)
    requires OnAir(s) && s.counter == 0 && |s.active| > MAX_BATCH
    ensures IsRun(s, steps) && Submissions(steps) == [] && !LeavesHandedOverAlone(After(s, steps))
  {
    hide *;
    var first := SendPacket(s);
    var t := After(s, first);
    NextOnAir(s, t);
    var round := GoesRound(t, 255);
    RoundAgain(s, t, After(t, round));
    Concat(s, first, round);
    steps := first + round;
  }

  lemma OversizedStays(s: TxState, step: Step)
    requires Control(s) && Enabled(s, step) && s.batchActive && |s.active| > MAX_BATCH
    ensures Next(s, step).batchActive && |Next(s, step).active| == |s.active|
  {
    if step.Advance? {
      assert (s.counter + 1) % 256 != |s.active|;
    }
  }

  lemma {:induction false} OversizedNeverEnds(s: TxState, steps: seq<Step>)
    requires Control(s) && IsRun(s, steps) && s.batchActive && |s.active| > MAX_BATCH
    ensures After(s, steps).batchActive
    decreases |steps|
  {
    if steps != [] {
      OversizedStays(s, steps[0]);
      StepControl(s, steps[0]);
      OversizedNeverEnds(Next(s, steps[0]), steps[1..]);
    }
  }

  /** A batch that is put on air can end at all exactly if it has at most 255 packets. */
  lemma BatchEndsIffItFits(s: TxState, t0: nat)
    requires Control(s) && Enabled(s, Transmit(t0))
    ensures var t := Next(s, Transmit(t0));
            (exists steps :: IsRun(t, steps) && !After(t, steps).batchActive) <==> |s.active| <= MAX_BATCH
  {
    var t := Next(s, Transmit(t0));
    StepControl(s, Transmit(t0));
    if |s.active| > MAX_BATCH {
      forall steps | IsRun(t, steps)
        ensures After(t, steps).batchActive
      {
        OversizedNeverEnds(t, steps);
      }
    } else if s.ticker == Resting {
      var steps := SendRest(t);
    } else {
      var steps := SendRestLate(t);
    }
  }

  /** The same when the ticker still has to leave the batch before. */
  lemma SendRestLate(s: TxState) returns (steps: seq<Step>)
    requires Control(s) && s.attached && |s.active| <= MAX_BATCH && (s.ticker.Leaving? || s.ticker == Left)
    ensures IsRun(s, steps) && !After(s, steps).batchActive
    decreases if s.ticker.Leaving? then 1 else 0
  {
    var step := if s.ticker.Leaving? then Leave else Restart;
    StepControl(s, step);
    if s.ticker.Leaving? {
      steps := SendRestLate(Next(s, step));
    } else {
      steps := SendRest(Next(s, step));
    }
    Prepend(s, step, steps);
    steps := [step] + steps;
  }

  // ---------------------------------------------------------------- no lost wake-up

  /** No step of the run leaves the radio deaf. */
  ghost predicate Hears(s: TxState, steps: seq<Step>)
    requires IsRun(s, steps)
    decreases |steps|
  {
    steps != [] ==> !GoesDeaf(s, steps[0]) && Hears(Next(s, steps[0]), steps[1..])
  }

  /** In every run a waiting batch is somebody's job as long as no step leaves the radio deaf. */
  lemma {:induction false} NoLostWakeUp(s: TxState, steps: seq<Step>)
    requires Control(s) && Awake(s) && IsRun(s, steps) && Hears(s, steps)
    ensures Awake(After(s, steps))
    decreases |steps|
  {
    if steps != [] {
      StepControl(s, steps[0]);
      StepAwake(s, steps[0]);
      NoLostWakeUp(Next(s, steps[0]), steps[1..]);
    }
  }

  /** A step makes a lost wake-up possible exactly when it is the one that leaves the radio deaf. */
  lemma LostIffDeaf(s: TxState, step: Step)
    requires Control(s) && Awake(s) && Enabled(s, step)
    ensures var t := Next(s, step);
            (exists steps :: IsRun(t, steps) && Hears(t, steps) && !WillBeServed(After(t, steps))) <==> GoesDeaf(s, step)
  {
    var t := Next(s, step);
    StepControl(s, step);
    StepAwake(s, step);
    if GoesDeaf(s, step) {
      StepControl(t, Restart);
      var steps := LoseBatch(Next(t, Restart));
      Prepend(t, Restart, steps);
    } else {
      forall steps | IsRun(t, steps) && Hears(t, steps)
        ensures WillBeServed(After(t, steps))
      {
        NoLostWakeUp(t, steps);
      }
    }
  }

  /** The radio is in TX and nothing is on its way to change that. */
  ghost predicate Deaf(s: TxState) {
    Control(s) && s.radio == Tx && !s.batchActive && !s.ticker.Leaving?
  }

  /** The starts that are pending come to nothing, and so does that of one more batch. */
  lemma {:induction false} LoseBatch(s: TxState) returns (steps: seq<Step>)
    requires Deaf(s) && s.ticker == Resting
    ensures IsRun(s, steps) && Hears(s, steps) && !WillBeServed(After(s, steps))
    decreases s.pending
  {
    if s.pending > 0 {
      StepControl(s, Enter);
      steps := LoseBatch(Next(s, Enter));
      Prepend(s, Enter, steps);
      steps := [Enter] + steps;
    } else {
      var submit := Submit([Packet(0, [], 0, 25, 0)]);
      var t := Next(s, submit);
      Prepend(t, Enter, []);
      Prepend(s, submit, [Enter] + []);
      steps := [submit] + ([Enter] + []);
      assert Hears(t, [Enter] + []);
    }
  }

  lemma DeafStep(s: TxState, step: Step)
    requires Deaf(s) && Enabled(s, step) && !step.Start? && !step.Receiver?
    ensures Deaf(Next(s, step)) && Next(s, step).air == s.air
  {
    StepControl(s, step);
  }

  /** A deaf radio sends nothing, whatever is submitted, until start() or an interrupt moves it. */
  lemma {:induction false} DeafIsSilent(s: TxState, steps: seq<Step>)
    requires Deaf(s) && IsRun(s, steps)
    requires forall i :: 0 <= i < |steps| ==> !steps[i].Start? && !steps[i].Receiver?
    ensures Deaf(After(s, steps)) && After(s, steps).air == s.air
    decreases |steps|
  {
    if steps != [] {
      DeafStep(s, steps[0]);
      DeafIsSilent(Next(s, steps[0]), steps[1..]);
    }
  }

  /** Without start() a key-transfer batch leaves the radio deaf. */
  lemma UnstartedGoesDeaf()
    ensures exists steps :: IsRun(INIT, steps) && GoesDeafAfter(steps)
  {
    var p := Packet(0, [0, 0, 0, 0, 0, 0, 0, 0, 0x32], 0, 25, 0);
    assert IsKeyTransfer([p][0]);
    var begin := BeginBatch(INIT, [p]);
    var rest := SendRest(After(INIT, begin));
    Concat(INIT, begin, rest);
    assert GoesDeafAfter(begin + rest);
  }

  ghost predicate GoesDeafAfter(steps: seq<Step>)
    requires IsRun(INIT, steps)
  {
    Enabled(After(INIT, steps), Leave) && GoesDeaf(After(INIT, steps), Leave)
  }

  /** start() comes before the first submission. */
  predicate StartsFirst(steps: seq<Step>) {
    steps != [] ==> steps[0].Start? || (!steps[0].Submit? && StartsFirst(steps[1..]))
  }

  lemma {:induction false} StartedHears(s: TxState, steps: seq<Step>)
    requires s.started && IsRun(s, steps)
    ensures Hears(s, steps)
    decreases |steps|
  {
    if steps != [] {
      StartedHears(Next(s, steps[0]), steps[1..]);
    }
  }

  /** Nothing was ever submitted. */
  predicate Unused(s: TxState) {
    s == INIT.(started := s.started, radio := s.radio)
  }

  lemma {:induction false} StartFirstHears(s: TxState, steps: seq<Step>)
    requires Unused(s) && IsRun(s, steps) && StartsFirst(steps)
    ensures Hears(s, steps)
    decreases |steps|
  {
    if steps != [] {
      if steps[0].Start? {
        StartedHears(Next(s, steps[0]), steps[1..]);
      } else {
        StartFirstHears(Next(s, steps[0]), steps[1..]);
      }
    }
  }

  /** With start() before the first send, a waiting batch is always somebody's job. */
  lemma StartedIsServed(steps: seq<Step>)
    requires IsRun(INIT, steps) && StartsFirst(steps)
    ensures Awake(After(INIT, steps))
  {
    InitInv();
    StartFirstHears(INIT, steps);
    NoLostWakeUp(INIT, steps);
  }

  // ---------------------------------------------------------------- everything can be sent

  /** A started radio on which a waiting batch is somebody's job. */
  ghost predicate Serving(s: TxState) {
    Control(s) && Fits(s) && Awake(s) && s.started
  }

  lemma StepServing(s: TxState, step: Step)
    requires Serving(s) && Enabled(s, step) && !Oversized(step)
    ensures Serving(Next(s, step))
  {
    StepControl(s, step);
    StepFits(s, step);
    StepAwake(s, step);
  }

  /** How far the batch that is under way, or the ticker, is from the next claim. */
  function ToGo(s: TxState): nat {
    if s.batchActive then
      if s.starter == Claimed then 8 else if s.starter == Prepared then 7
      else if s.ticker.Leaving? then 6 else if s.ticker == Resting then 4 else 5
    else if s.ticker.Leaving? then 3 else if s.ticker == Left then 2 else if s.queue != [] then 1 else 0
  }

  /** The step that is somebody's job now. */
  function Duty(s: TxState): Step {
    if s.starter == Claimed then Prepare
    else if s.starter == Prepared then Transmit(0)
    else if s.ticker == HandedOver then Advance(0)
    else if s.ticker.Leaving? then Leave
    else if s.ticker == Left then Restart
    else Enter
  }

  lemma DutyGoesOn(s: TxState)
    requires Serving(s) && ToGo(s) != 0 && !OnAir(s)
    ensures Enabled(s, Duty(s)) && !Duty(s).Submit?
    ensures var t := Next(s, Duty(s));
            |t.queue| < |s.queue| || (|t.queue| == |s.queue| && ToGo(t) < ToGo(s))
  {
  }

  lemma SentRest(s: TxState, t: TxState)
    requires Serving(s) && OnAir(s)
    requires Control(t) && SameCallers(s, t) && t.ticker == Leaving(s.listen) && !t.batchActive
    ensures Serving(t) && |t.queue| == |s.queue| && ToGo(t) < ToGo(s)
  {
  }

  lemma {:induction false} Drain(s: TxState) returns (steps: seq<Step>)
    requires Serving(s)
    ensures IsRun(s, steps) && Submissions(steps) == []
    ensures After(s, steps).queue == [] && !After(s, steps).batchActive
    decreases |s.queue|, ToGo(s)
  {
    steps := [];
    if OnAir(s) {
      assert |s.active| <= MAX_BATCH;
      hide Serving, ToGo;
      steps := SendRest(s);
      var t := After(s, steps);
      SentRest(s, t);
      var more := Drain(t);
      Concat(s, steps, more);
      steps := steps + more;
    } else if ToGo(s) != 0 {
      var duty := Duty(s);
      DutyGoesOn(s);
      StepServing(s, duty);
      hide *;
      steps := Drain(Next(s, duty));
      Prepend(s, duty, steps);
      steps := [duty] + steps;
    }
  }

  /** From every state in which a started radio is reached without going deaf, some run without further
      submissions puts everything that was submitted on air. */
  lemma EverythingCanBeSent(steps: seq<Step>) returns (more: seq<Step>)
    requires IsRun(INIT, steps) && Hears(INIT, steps) && AllFit(Submissions(steps))
    requires After(INIT, steps).started
    ensures IsRun(INIT, steps + more) && Submissions(steps + more) == Submissions(steps)
    ensures var s := After(INIT, steps + more);
            s.queue == [] && !s.batchActive && s.air == SoundedAll(s.submitted)
  {
    InitInv();
    NoLostWakeUp(INIT, steps);
    RunKeepsInv(INIT, steps);
    more := Drain(After(INIT, steps));
    hide *;
    Concat(INIT, steps, more);
    AirFollowsQueue(steps + more);
  }

  // ---------------------------------------------------------------- time bound

  function Transmissions(b: Batch): nat {
    if b == [] then 0 else b[0].repeats + 1 + Transmissions(b[1..])
  }

  lemma {:induction false} TimesLength(payload: seq<bv8>, n: nat)
    ensures |Times(payload, n)| == n
  {
    if n > 0 {
      TimesLength(payload, n - 1);
    }
  }

  lemma {:induction false} PayloadsLength(b: Batch)
    ensures |Payloads(b)| == Transmissions(b)
  {
    if b != [] {
      TimesLength(b[0].frame, b[0].repeats + 1);
      PayloadsLength(b[1..]);
    }
  }

  /** What a step of the ticker says of the clock. */
  function Clock(step: Step, last: nat): nat {
    match step
    case Tick(nowUs, _, _) => nowUs
    case Advance(nowUs) => nowUs
    case _ => last
  }

  /** Ticks come at most `period` after the ticker's last step; handing a packet over takes as long as
      the callback queue makes it wait, at most QUEUE_WAIT_US. */
  predicate OnTime(step: Step, last: nat, period: nat) {
    && last <= Clock(step, last)
    && (step.Tick? ==> step.nowUs <= last + period)
    && (step.Advance? ==> step.nowUs <= last + QUEUE_WAIT_US)
  }

  ghost predicate Timely(steps: seq<Step>, last: nat, period: nat) {
    steps != [] ==> OnTime(steps[0], last, period) && Timely(steps[1..], Clock(steps[0], last), period)
  }

  function LastClock(steps: seq<Step>, last: nat): nat {
    if steps == [] then last else LastClock(steps[1..], Clock(steps[0], last))
  }

  /** The batch is active before every step; the last one may end it. */
  ghost predicate SendingThrough(s: TxState, steps: seq<Step>)
    requires IsRun(s, steps)
    decreases |steps|
  {
    steps != [] ==> s.batchActive && SendingThrough(Next(s, steps[0]), steps[1..])
  }

  /** When `sent` further frames are out and `handed` packets handed over, at the latest. */
  function Bound(t0: nat, sent: nat, handed: nat, period: nat): nat {
    t0 + sent * (TXDONE_TIMEOUT_US + period) + handed * QUEUE_WAIT_US
  }

  /** `sent` frames went out since `t0`, the last of them within its share of the bound. */
  ghost predicate OnSchedule(s: TxState, t0: nat, last: nat, sent: nat, period: nat) {
    && s.attached && sent >= 1
    && s.startedAtUs <= Bound(t0, sent - 1, s.counter, period)
    && s.startedAtUs <= last <= s.startedAtUs + TXDONE_TIMEOUT_US + (if s.ticker == HandedOver then period else 0)
  }

  lemma NextFrame(t0: nat, startedAtUs: nat, sent: nat, handed: nat, period: nat, nowUs: nat)
    requires sent >= 1 && startedAtUs <= Bound(t0, sent - 1, handed, period)
    ensures nowUs <= startedAtUs + TXDONE_TIMEOUT_US + period ==> nowUs <= Bound(t0, sent, handed, period)
    ensures nowUs <= startedAtUs + TXDONE_TIMEOUT_US + period + QUEUE_WAIT_US ==> nowUs <= Bound(t0, sent, handed + 1, period)
  {
    var share := TXDONE_TIMEOUT_US + period;
    assert (sent - 1) * share + share == sent * share;
  }

  lemma BoundGrows(t0: nat, n: nat, m: nat, h: nat, k: nat, period: nat)
    requires n <= m && h <= k
    ensures Bound(t0, n, h, period) <= Bound(t0, m, k, period)
  {
    assert n * (TXDONE_TIMEOUT_US + period) <= m * (TXDONE_TIMEOUT_US + period);
  }

  /** A tick waits, hands the packet over, or writes one frame at its own instant. */
  lemma TickWrites(s: TxState, nowUs: nat, sentFlag: bool, accepted: bool)
    requires Control(s) && s.attached && s.ticker == Resting && s.startedAtUs <= nowUs
    ensures var t := TickStep(s, nowUs, sentFlag, accepted);
            && t.attached && t.counter == s.counter
            && if |t.air| == |s.air|
               then t.startedAtUs == s.startedAtUs && |BatchRest(t)| == |BatchRest(s)|
                    && (t.ticker == HandedOver || nowUs <= s.startedAtUs + TXDONE_TIMEOUT_US)
               else t.startedAtUs == nowUs && 1 + |BatchRest(t)| == |BatchRest(s)|
  {
    TickTrace(s, nowUs, sentFlag, accepted);
    hide BatchRest, Promise;
  }

  lemma TickOnSchedule(s: TxState, nowUs: nat, sentFlag: bool, accepted: bool, t0: nat, last: nat, sent: nat, period: nat)
      returns (sent': nat)
    requires Control(s) && s.ticker == Resting && OnSchedule(s, t0, last, sent, period)
    requires last <= nowUs <= last + period
    ensures var t := TickStep(s, nowUs, sentFlag, accepted);
            && OnSchedule(t, t0, nowUs, sent', period)
            && sent' + |BatchRest(t)| == sent + |BatchRest(s)|
  {
    TickWrites(s, nowUs, sentFlag, accepted);
    hide BatchRest, TickStep, Control, Bound;
    sent' := sent;
    if |TickStep(s, nowUs, sentFlag, accepted).air| != |s.air| {
      sent' := sent + 1;
      NextFrame(t0, s.startedAtUs, sent, s.counter, period, nowUs);
    }
  }

  /** An advance that does not end the batch writes one frame at its own instant. */
  lemma AdvanceWrites(s: TxState, nowUs: nat)
    requires Control(s) && s.ticker == HandedOver && s.counter + 1 < |s.active| <= MAX_BATCH
    ensures var t := AdvanceStep(s, nowUs);
            && t.attached && t.ticker == Resting && t.counter == s.counter + 1 && t.startedAtUs == nowUs
            && 1 + |BatchRest(t)| == |BatchRest(s)|
  {
    hide AdvanceStep, BatchRest, Promise;
    AdvanceTraceNext(s, nowUs);
    AdvanceIsNext(s, nowUs);
  }

  lemma AdvanceOnSchedule(s: TxState, nowUs: nat, t0: nat, last: nat, sent: nat, period: nat)
    requires Control(s) && s.ticker == HandedOver && OnSchedule(s, t0, last, sent, period)
    requires last <= nowUs <= last + QUEUE_WAIT_US
    ensures nowUs <= Bound(t0, sent, s.counter + 1, period)
    ensures s.counter + 1 < |s.active| <= MAX_BATCH ==>
      var t := AdvanceStep(s, nowUs);
      && OnSchedule(t, t0, nowUs, sent + 1, period)
      && 1 + |BatchRest(t)| == |BatchRest(s)|
  {
    NextFrame(t0, s.startedAtUs, sent, s.counter, period, nowUs);
    if s.counter + 1 < |s.active| <= MAX_BATCH {
      AdvanceWrites(s, nowUs);
    }
    hide Bound, BatchRest, AdvanceStep, Control;
  }

  /** Every other task leaves the batch on air alone. */
  lemma OthersLeaveBatch(s: TxState, step: Step)
    requires Control(s) && Enabled(s, step) && s.attached && !step.Tick? && !step.Advance?
    ensures var t := Next(s, step);
            && t.active == s.active && t.counter == s.counter && t.starter == s.starter && t.batchActive == s.batchActive
            && t.attached == s.attached && t.startedAtUs == s.startedAtUs
            && (t.ticker == HandedOver <==> s.ticker == HandedOver)
  {
  }

  lemma OthersOnSchedule(s: TxState, step: Step, t0: nat, last: nat, sent: nat, period: nat)
    requires Control(s) && Enabled(s, step) && OnSchedule(s, t0, last, sent, period)
    requires !step.Tick? && !step.Advance?
    ensures OnSchedule(Next(s, step), t0, last, sent, period)
    ensures BatchRest(Next(s, step)) == BatchRest(s)
  {
    OthersLeaveBatch(s, step);
    hide Next, Enabled;
  }

  lemma StepOnSchedule(s: TxState, step: Step, t0: nat, last: nat, sent: nat, period: nat)
      returns (sent': nat)
    requires Control(s) && Enabled(s, step) && OnSchedule(s, t0, last, sent, period)
    requires OnTime(step, last, period)
    requires Next(s, step).batchActive && |s.active| <= MAX_BATCH
    ensures OnSchedule(Next(s, step), t0, Clock(step, last), sent', period)
    ensures sent' + |BatchRest(Next(s, step))| == sent + |BatchRest(s)|
    ensures |Next(s, step).active| == |s.active|
  {
    sent' := sent;
    if step.Tick? {
      sent' := TickOnSchedule(s, step.nowUs, step.sentFlag, step.accepted, t0, last, sent, period);
    } else if step.Advance? {
      AdvanceOnSchedule(s, step.nowUs, t0, last, sent, period);
      sent' := sent + 1;
    } else {
      OthersOnSchedule(s, step, t0, last, sent, period);
    }
  }

  /** Only handing over its last packet ends a batch. */
  lemma EndedByAdvance(s: TxState, step: Step)
    requires Control(s) && Enabled(s, step) && s.attached && !Next(s, step).batchActive
    ensures step.Advance? && s.ticker == HandedOver
  {
    if !step.Tick? && !step.Advance? {
      OthersLeaveBatch(s, step);
    }
  }

  lemma {:induction false} RunOnSchedule(s: TxState, steps: seq<Step>, t0: nat, last: nat, sent: nat, period: nat)
    requires Control(s) && IsRun(s, steps) && SendingThrough(s, steps) && Timely(steps, last, period)
    requires |s.active| <= MAX_BATCH && OnSchedule(s, t0, last, sent, period)
    ensures LastClock(steps, last) <= Bound(t0, sent + |BatchRest(s)|, |s.active|, period)
    decreases |steps|
  {
    hide Bound, BatchRest;
    BoundGrows(t0, sent, sent + |BatchRest(s)|, s.counter, |s.active|, period);
    BoundGrows(t0, sent, sent + |BatchRest(s)|, s.counter + 1, |s.active|, period);
    if steps == [] {
      NextFrame(t0, s.startedAtUs, sent, s.counter, period, last);
    } else if !Next(s, steps[0]).batchActive {
      EndedByAdvance(s, steps[0]);
      AdvanceOnSchedule(s, steps[0].nowUs, t0, last, sent, period);
      assert steps[1..] == [];
    } else {
      StepControl(s, steps[0]);
      var sent' := StepOnSchedule(s, steps[0], t0, last, sent, period);
      RunOnSchedule(Next(s, steps[0]), steps[1..], t0, Clock(steps[0], last), sent', period);
    }
  }

  /** Even if no TXDONE ever arrives and the callback queue makes each packet wait, no step of a batch
      put on air at `t0`, the one that ends it included, comes later than (repeat + 1) times (2 s +
      ticker period) + 25 ms per packet after `t0`, whatever runs in between. */
  lemma BatchTimeBound(s: TxState, steps: seq<Step>, t0: nat)
    requires Control(s) && Enabled(s, Transmit(t0)) && |s.active| <= MAX_BATCH
    requires IsRun(Next(s, Transmit(t0)), steps) && SendingThrough(Next(s, Transmit(t0)), steps)
    requires Timely(steps, t0, 1000 * s.active[0].repeatTimeMs)
    ensures var period := 1000 * s.active[0].repeatTimeMs;
            LastClock(steps, t0)
              <= t0 + Transmissions(s.active) * (TXDONE_TIMEOUT_US + period) + |s.active| * QUEUE_WAIT_US
  {
    StepControl(s, Transmit(t0));
    TransmitTrace(s, t0);
    PayloadsLength(s.active);
    RunOnSchedule(Next(s, Transmit(t0)), steps, t0, t0, 1, 1000 * s.active[0].repeatTimeMs);
  }
}
