/** Whole calls of the transmit engine, as the sequence of atomic steps they take when nothing
    interrupts them. The methods of the radio object are proved against these. */
module TxCalls {
  import opened RadioTypes
  import opened TxProtocol
  import opened TxTheorems

  ghost predicate NoEmptyBatch(s: TxState) {
    forall i :: 0 <= i < |s.queue| ==> s.queue[i] != []
  }

  predicate CanClaim(s: TxState) {
    !s.batchActive && s.radio != Tx && s.active == [] && s.queue != []
  }

  /** A claimed batch with its first packet on air. */
  function Launched(s: TxState, nowUs: nat): TxState
    requires s.counter < |s.active|
  {
    Emit(s.(listen := HasKeyTransfer(s.active), radio := Tx, attached := true), nowUs, true)
  }

  /** One call of startQueuedSend. */
  function Started(s: TxState, nowUs: nat): TxState {
    if CanClaim(s) && s.queue[0] != [] then Launched(Claim(s).(starter := s.starter), nowUs) else s
  }

  /** The last packet of a batch is gone: detach the ticker and free the engine. */
  function Ended(s: TxState): TxState {
    s.(attached := false, active := [], listen := false, batchActive := false,
       radio := if s.listen && !s.started then s.radio else Rx)
  }

  /** onTxTicker once the current packet is handed over. */
  function Advanced(s: TxState, nowUs: nat): TxState
    requires s.counter < |s.active|
  {
    var t := s.(counter := (s.counter + 1) % 256);
    if t.counter == |s.active| then Started(Ended(t), nowUs)
    else Emit(t.(complete := false, radio := Tx), nowUs, false)
  }

  /** One call of onTxTicker. */
  function Ticked(s: TxState, nowUs: nat, sentFlag: bool, accepted: bool): TxState
    requires s.counter < |s.active|
  {
    if Completed(s, nowUs, sentFlag) && s.active[s.counter].repeats == 0
    then Advanced(HandOver(s, accepted).(complete := true), nowUs)
    else TickStep(s, nowUs, sentFlag, accepted)
  }

  /** startQueuedSend is the mutex section, and for the winner preparing and transmitting. */
  lemma StartedIsRun(s: TxState, nowUs: nat) returns (steps: seq<Step>)
    requires Control(s) && s.starter == NoStarter
    ensures IsRun(s.(pending := s.pending + 1), steps) && Submissions(steps) == []
    ensures After(s.(pending := s.pending + 1), steps) == Started(s, nowUs)
  {
    var waiting := s.(pending := s.pending + 1);
    assert waiting.(pending := waiting.pending - 1) == s;
    steps := [];
    if CanClaim(s) {
      var claimed := Next(waiting, Enter);
      assert claimed == Claim(s);
      steps := LaunchRun(claimed, nowUs);
    }
    Prepend(waiting, Enter, steps);
    steps := [Enter] + steps;
  }

  lemma LaunchRun(claimed: TxState, nowUs: nat) returns (steps: seq<Step>)
    requires claimed.starter == Claimed && claimed.counter < |claimed.active|
    ensures IsRun(claimed, steps) && Submissions(steps) == []
    ensures After(claimed, steps) == Launched(claimed.(starter := NoStarter), nowUs)
  {
    var prepared := Next(claimed, Prepare);
    steps := [];
    assert After(Next(prepared, Transmit(nowUs)), steps) == Next(prepared, Transmit(nowUs));
    Prepend(prepared, Transmit(nowUs), steps);
    Prepend(claimed, Prepare, [Transmit(nowUs)] + steps);
    steps := [Prepare] + ([Transmit(nowUs)] + steps);
  }

  /** The end of a batch: leave, restart, and possibly launch the next one. */
  lemma EndRun(u: TxState, nowUs: nat) returns (steps: seq<Step>)
    requires Control(u) && u.ticker.Leaving? && !u.batchActive && !u.listen
    ensures IsRun(u, steps) && Submissions(steps) == []
    ensures After(u, steps) == Started(Ended(u.(ticker := Resting, listen := u.ticker.listen)), nowUs)
  {
    var left := Next(u, Leave);
    var e := Ended(u.(ticker := Resting, listen := u.ticker.listen));
    assert left.(ticker := Resting) == e;
    steps := [];
    if CanClaim(e) {
      steps := LaunchRun(Claim(e), nowUs);
    }
    Prepend(left, Restart, steps);
    Prepend(u, Leave, [Restart] + steps);
    steps := [Leave] + ([Restart] + steps);
  }

  /** onTxTicker is a tick, and after a hand-over the advance and perhaps the end of the batch. */
  lemma TickedIsRun(s: TxState, nowUs: nat, sentFlag: bool, accepted: bool) returns (steps: seq<Step>)
    requires Control(s) && Enabled(s, Tick(nowUs, sentFlag, accepted))
    ensures IsRun(s, steps) && Submissions(steps) == [] && After(s, steps) == Ticked(s, nowUs, sentFlag, accepted)
  {
    var t := TickStep(s, nowUs, sentFlag, accepted);
    StepControl(s, Tick(nowUs, sentFlag, accepted));
    steps := [];
    if t.ticker == HandedOver {
      steps := AdvancedIsRun(t, nowUs);
      assert t.(ticker := Resting) == HandOver(s, accepted).(complete := true);
    }
    Prepend(s, Tick(nowUs, sentFlag, accepted), steps);
    steps := [Tick(nowUs, sentFlag, accepted)] + steps;
  }

  lemma AdvancedIsRun(t: TxState, nowUs: nat) returns (steps: seq<Step>)
    requires Control(t) && t.ticker == HandedOver
    ensures IsRun(t, steps) && Submissions(steps) == [] && After(t, steps) == Advanced(t.(ticker := Resting), nowUs)
  {
    StepControl(t, Advance(nowUs));
    var u := AdvanceStep(t, nowUs);
    steps := [];
    if u.ticker.Leaving? {
      steps := EndRun(u, nowUs);
    }
    Prepend(t, Advance(nowUs), steps);
    steps := [Advance(nowUs)] + steps;
  }

  lemma SubmitQueues(s: TxState, batch: Batch)
    requires Control(s) && s.starter == NoStarter
    ensures Enabled(s, Submit(batch))
    ensures var q := Queued(s, batch);
            Next(s, Submit(batch)) == q.(pending := q.pending + 1) && Control(q) && q.starter == NoStarter
  {
  }

  /** Whole calls therefore keep everything the runs keep: a send, from a sender with no start pending, */
  lemma SendKeepsInv(s: TxState, batch: Batch, nowUs: nat)
    requires Inv(s) && s.starter == NoStarter && |batch| <= MAX_BATCH
    ensures Inv(Started(Queued(s, batch), nowUs))
  {
    StepInv(s, Submit(batch));
    SubmitQueues(s, batch);
    hide *;
    var steps := StartedIsRun(Queued(s, batch), nowUs);
    RunKeepsInv(Next(s, Submit(batch)), steps);
  }

  /** and a call of the ticker. */
  lemma TickKeepsInv(s: TxState, nowUs: nat, sentFlag: bool, accepted: bool)
    requires Inv(s) && Enabled(s, Tick(nowUs, sentFlag, accepted))
    ensures Inv(Ticked(s, nowUs, sentFlag, accepted))
  {
    StepControl(s, Tick(nowUs, sentFlag, accepted));
    hide Ticked, IsRun, After;
    var steps := TickedIsRun(s, nowUs, sentFlag, accepted);
    RunKeepsInv(s, steps);
  }

  /** No call is in progress. */
  ghost predicate BetweenCalls(s: TxState) {
    Control(s) && s.starter == NoStarter && s.ticker == Resting
  }

  lemma StartedBetweenCalls(s: TxState, nowUs: nat)
    requires BetweenCalls(s)
    ensures BetweenCalls(Started(s, nowUs))
  {
    var steps := StartedIsRun(s, nowUs);
    RunKeepsControl(s.(pending := s.pending + 1), steps);
  }

  lemma TickedBetweenCalls(s: TxState, nowUs: nat, sentFlag: bool, accepted: bool)
    requires BetweenCalls(s) && Enabled(s, Tick(nowUs, sentFlag, accepted))
    ensures BetweenCalls(Ticked(s, nowUs, sentFlag, accepted))
  {
    StaysBetweenCalls(s, nowUs, sentFlag, accepted);
    hide Ticked, IsRun, After;
    var steps := TickedIsRun(s, nowUs, sentFlag, accepted);
    RunKeepsControl(s, steps);
  }

  /** `t` has starter and ticker where `s` has them. */
  predicate SamePcs(s: TxState, t: TxState) {
    t.starter == s.starter && t.ticker == s.ticker
  }

  lemma StartedStays(s: TxState, nowUs: nat)
    ensures SamePcs(s, Started(s, nowUs))
  {
  }

  lemma AdvancedStays(s: TxState, nowUs: nat)
    requires s.counter < |s.active|
    ensures SamePcs(s, Advanced(s, nowUs))
  {
    hide Started;
    var t := s.(counter := (s.counter + 1) % 256);
    if t.counter == |t.active| {
      StartedStays(Ended(t), nowUs);
    }
  }

  lemma StaysBetweenCalls(s: TxState, nowUs: nat, sentFlag: bool, accepted: bool)
    requires s.counter < |s.active|
    ensures SamePcs(s, Ticked(s, nowUs, sentFlag, accepted))
  {
    hide Advanced;
    AdvancedStays(HandOver(s, accepted).(complete := true), nowUs);
  }
}
