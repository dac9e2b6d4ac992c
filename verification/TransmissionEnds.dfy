/** When a transmission is over: what a ticker call waits for, and what lets it go on. */
module TransmissionEnds {
  import opened RadioTypes
  import opened TxProtocol
  import opened TxTheorems

  /** Nothing says that the frame on air is out: no TXDONE was noted, PacketSent is clear in the status
      register, and at most two seconds have passed. */
  predicate Waits(s: TxState, nowUs: nat, sentFlag: bool) {
    !s.complete && !sentFlag && nowUs <= s.startedAtUs + 2_000_000
  }

  /** `t` is `s` with the current packet written once more, and one repetition less to go. */
  predicate WrittenAgain(s: TxState, t: TxState, nowUs: nat)
    requires s.counter < |s.active|
  {
    var p := s.active[s.counter];
    && t.air == s.air + [AirFrame(p.frame, false)] && t.startedAtUs == nowUs && !t.complete && t.ticker == s.ticker
    && p.repeats > 0 && t.active == s.active[s.counter := p.(repeats := p.repeats - 1)]
    && t.callbacks == s.callbacks && t.freed == s.freed
  }

  /** `t` is `s` with the current packet handed over: to the callback task, or deleted. */
  predicate GivenAway(s: TxState, t: TxState, accepted: bool)
    requires s.counter < |s.active|
  {
    var p := s.active[s.counter];
    && p.repeats == 0 && t.air == s.air && t.active == s.active && t.ticker == HandedOver
    && t.callbacks == (if accepted then s.callbacks + [p] else s.callbacks)
    && t.freed == (if accepted then s.freed else s.freed + multiset{p.id})
  }

  lemma GoesOn(s: TxState, nowUs: nat, sentFlag: bool, accepted: bool)
    requires s.counter < |s.active| && !Waits(s, nowUs, sentFlag)
    ensures var t := TickStep(s, nowUs, sentFlag, accepted);
            if s.active[s.counter].repeats > 0 then WrittenAgain(s, t, nowUs) else GivenAway(s, t, accepted)
  {
  }

  /** A tick changes nothing exactly as long as nothing says that the frame is out; otherwise it writes
      the packet once more, or hands it over. */
  lemma TickGoesOnIff(s: TxState, nowUs: nat, sentFlag: bool, accepted: bool)
    requires s.counter < |s.active| && s.ticker == Resting
    ensures var t := TickStep(s, nowUs, sentFlag, accepted);
            && (t == s <==> Waits(s, nowUs, sentFlag))
            && (t == s || WrittenAgain(s, t, nowUs) || GivenAway(s, t, accepted))
  {
    if !Waits(s, nowUs, sentFlag) {
      GoesOn(s, nowUs, sentFlag, accepted);
    }
  }

  // ---------------------------------------------------------------- over whole runs

  lemma {:induction false} Prefix(s: TxState, steps: seq<Step>, k: nat)
    requires IsRun(s, steps) && k <= |steps|
    ensures IsRun(s, steps[..k]) && IsRun(After(s, steps[..k]), steps[k..])
    ensures After(After(s, steps[..k]), steps[k..]) == After(s, steps)
    decreases k
  {
    hide Next, Enabled;
    if k == 0 {
      assert steps[..0] == [] && steps[0..] == steps;
    } else {
      assert steps[..k][1..] == steps[1..][..k - 1] && steps[1..][k - 1..] == steps[k..];
      Prefix(Next(s, steps[0]), steps[1..], k - 1);
    }
  }

  /** The state before step `k` of a run from power-up. */
  ghost function At(steps: seq<Step>, k: nat): TxState
    requires IsRun(INIT, steps) && k <= |steps|
  {
    Prefix(INIT, steps, k);
    After(INIT, steps[..k])
  }

  lemma AtNext(steps: seq<Step>, k: nat)
    requires IsRun(INIT, steps) && k < |steps|
    ensures Enabled(At(steps, k), steps[k]) && At(steps, k + 1) == Next(At(steps, k), steps[k])
    ensures Control(At(steps, k))
  {
    hide Next, Enabled, Control, Trace, Owned, Fits, Awake;
    Prefix(INIT, steps, k);
    Prefix(INIT, steps, k + 1);
    var s := After(INIT, steps[..k]);
    InitInv();
    RunKeepsControl(INIT, steps[..k]);
    assert steps[k..][0] == steps[k];
    assert steps[..k + 1] == steps[..k] + [steps[k]];
    assert [steps[k]][1..] == [];
    Concat(INIT, steps[..k], [steps[k]]);
  }

  /** Step `k` notes a TXDONE for the frame that is on air before step `m`. The engine does not clear
      what is noted between claiming a batch and writing its first frame. */
  ghost predicate NotedFor(steps: seq<Step>, k: nat, m: nat)
    requires IsRun(INIT, steps) && m <= |steps|
  {
    && k < m && steps[k].TxDone?
    && (At(steps, k).air == At(steps, m).air
        || (At(steps, k).starter != NoStarter && |At(steps, m).air| == |At(steps, k).air| + 1))
  }

  /** As long as the batch waits for its first frame, nothing is written. */
  ghost predicate Noted(steps: seq<Step>, m: nat)
    requires IsRun(INIT, steps) && m <= |steps|
  {
    var s := At(steps, m);
    s.complete && s.batchActive && s.ticker != HandedOver ==>
      exists k :: NotedFor(steps, k, m) && (s.starter != NoStarter ==> At(steps, k).air == s.air && At(steps, k).starter != NoStarter)
  }

  /** What one step does to the note. */
  lemma StepKeepsNote(s: TxState, step: Step)
    requires Control(s) && Enabled(s, step) && !step.TxDone?
    ensures var t := Next(s, step);
      t.complete && t.batchActive && t.ticker != HandedOver ==>
        && s.complete && s.batchActive && s.ticker != HandedOver
        && (t.starter != NoStarter ==> s.starter != NoStarter && t.air == s.air)
        && (t.air == s.air || (s.starter != NoStarter && |t.air| == |s.air| + 1))
  {
  }

  lemma {:induction false} CompleteIsNoted(steps: seq<Step>, m: nat)
    requires IsRun(INIT, steps) && m <= |steps|
    ensures Noted(steps, m)
    decreases m
  {
    if m > 0 {
      var k := m - 1;
      AtNext(steps, k);
      CompleteIsNoted(steps, k);
      var s, t := At(steps, k), At(steps, m);
      if steps[k].TxDone? {
        assert t.air == s.air && t.starter == s.starter;
        assert NotedFor(steps, k, m);
      } else if t.complete && t.batchActive && t.ticker != HandedOver {
        StepKeepsNote(s, steps[k]);
        var j :| NotedFor(steps, j, k)
                 && (s.starter != NoStarter ==> At(steps, j).air == s.air && At(steps, j).starter != NoStarter);
        assert NotedFor(steps, j, m);
      }
    } else {
      assert steps[..0] == [];
    }
  }

  /** In every run the ticker repeats a frame, or hands its packet over, only if a TXDONE was noted for
      the frame on air, the tick finds PacketSent set, or more than two seconds have passed. */
  lemma GoesOnOnlyWhenOut(steps: seq<Step>, m: nat)
    requires IsRun(INIT, steps) && m < |steps| && steps[m].Tick? && At(steps, m + 1) != At(steps, m)
    ensures steps[m].sentFlag || steps[m].nowUs > At(steps, m).startedAtUs + 2_000_000 || exists k :: NotedFor(steps, k, m)
  {
    AtNext(steps, m);
    var s := At(steps, m);
    TickGoesOnIff(s, steps[m].nowUs, steps[m].sentFlag, steps[m].accepted);
    hide TickStep, NotedFor, At;
    CompleteIsNoted(steps, m);
  }

  /** If TXDONE is only signalled for frames on air, the note is one since the last frame. */
  lemma GoesOnOnlyWhenFrameOut(steps: seq<Step>, m: nat)
    requires IsRun(INIT, steps) && m < |steps| && steps[m].Tick? && At(steps, m + 1) != At(steps, m)
    requires forall k :: 0 <= k < m && steps[k].TxDone? ==> At(steps, k).attached
    ensures steps[m].sentFlag || steps[m].nowUs > At(steps, m).startedAtUs + 2_000_000
         || exists k :: NotedFor(steps, k, m) && At(steps, k).air == At(steps, m).air
  {
    GoesOnOnlyWhenOut(steps, m);
    if k :| NotedFor(steps, k, m) {
      AtNext(steps, k);
    }
  }

  const STALE: Packet := Packet(0, [], 1, 25, 0)

  /** A batch is claimed, and a TXDONE noted before its first frame is written. */
  lemma NotedTooEarly() returns (steps: seq<Step>)
    ensures IsRun(INIT, steps)
    ensures After(INIT, steps)
         == INIT.(active := [STALE], complete := true, batchActive := true, starter := Claimed, submitted := [[STALE]])
  {
    var s1 := Next(INIT, Submit([STALE]));
    var s2 := Next(s1, Enter);
    Prepend(s2, TxDone, []);
    Prepend(s1, Enter, [TxDone] + []);
    Prepend(INIT, Submit([STALE]), [Enter] + ([TxDone] + []));
    steps := [Submit([STALE])] + ([Enter] + ([TxDone] + []));
  }

  /** Without that, such a TXDONE lets the first tick write the frame again at once, although nothing says
      that it is out. */
  lemma StaleNoteCounts() returns (before: seq<Step>, after: seq<Step>)
    ensures IsRun(INIT, before) && After(INIT, before).air == []
    ensures after == [Prepare, Transmit(0), Tick(0, false, true)] && IsRun(After(INIT, before), after)
    ensures After(After(INIT, before), after).air == [AirFrame([], true), AirFrame([], false)]
  {
    before := NotedTooEarly();
    after := TickAtOnce(After(INIT, before));
  }

  lemma TickAtOnce(s: TxState) returns (steps: seq<Step>)
    requires s.starter == Claimed && s.active == [STALE] && s.counter == 0 && s.complete && s.ticker == Resting && s.air == []
    ensures steps == [Prepare, Transmit(0), Tick(0, false, true)] && IsRun(s, steps)
    ensures After(s, steps).air == [AirFrame([], true), AirFrame([], false)]
  {
    var tick := Tick(0, false, true);
    var s1 := Next(s, Prepare);
    var s2 := Next(s1, Transmit(0));
    Prepend(s2, tick, []);
    Prepend(s1, Transmit(0), [tick] + []);
    Prepend(s, Prepare, [Transmit(0)] + ([tick] + []));
    steps := [Prepare] + ([Transmit(0)] + ([tick] + []));
  }

  /** Every frame but the first of a batch is written by a ticker call that goes on: by the tick itself,
      or after the tick has handed over the packet before, with nothing written in between. */
  lemma FrameFollowsTick(steps: seq<Step>, m: nat) returns (k: nat)
    requires IsRun(INIT, steps) && m < |steps| && At(steps, m + 1).air != At(steps, m).air && !steps[m].Transmit?
    ensures k <= m && steps[k].Tick? && At(steps, k + 1) != At(steps, k) && At(steps, k).air == At(steps, m).air
  {
    AtNext(steps, m);
    if steps[m].Tick? {
      k := m;
    } else {
      WritesOnlyHere(At(steps, m), steps[m]);
      k := HandedOverByTick(steps, m);
    }
  }

  lemma WritesOnlyHere(s: TxState, step: Step)
    requires Enabled(s, step) && Next(s, step).air != s.air
    ensures step.Transmit? || step.Tick? || (step.Advance? && s.ticker == HandedOver)
  {
  }

  lemma OthersHandNothingOver(s: TxState, step: Step)
    requires Control(s) && Enabled(s, step) && Next(s, step).ticker == HandedOver
    ensures step.Tick? || (s.ticker == HandedOver && Next(s, step).air == s.air)
    ensures step.Tick? ==> s.ticker == Resting && Next(s, step).air == s.air
  {
  }

  lemma {:induction false} HandedOverByTick(steps: seq<Step>, m: nat) returns (k: nat)
    requires IsRun(INIT, steps) && m <= |steps| && At(steps, m).ticker == HandedOver
    ensures k < m && steps[k].Tick? && At(steps, k + 1) != At(steps, k) && At(steps, k).air == At(steps, m).air
    decreases m
  {
    assert steps[..0] == [] && At(steps, 0) == INIT;
    hide Next, Enabled, Control;
    AtNext(steps, m - 1);
    OthersHandNothingOver(At(steps, m - 1), steps[m - 1]);
    if steps[m - 1].Tick? {
      k := m - 1;
    } else {
      k := HandedOverByTick(steps, m - 1);
    }
  }

  // ---------------------------------------------------------------- and then it does go on

  lemma NoteStays(s: TxState, step: Step)
    requires Control(s) && Enabled(s, step) && s.attached && s.complete && !step.Tick? && !step.Advance?
    ensures var t := Next(s, step); t.attached && t.complete
  {
    OthersLeaveBatch(s, step);
  }

  /** A noted TXDONE stays noted through everything the other tasks do, and the next tick goes on. */
  lemma {:induction false} NextTickGoesOn(s: TxState, others: seq<Step>, tick: Step)
    requires Control(s) && s.attached && s.complete && IsRun(s, others)
    requires forall i :: 0 <= i < |others| ==> !others[i].Tick? && !others[i].Advance?
    requires tick.Tick? && Enabled(After(s, others), tick)
    ensures Next(After(s, others), tick) != After(s, others)
    decreases |others|
  {
    if others == [] {
      TickGoesOnIff(s, tick.nowUs, tick.sentFlag, tick.accepted);
    } else {
      NoteStays(s, others[0]);
      StepControl(s, others[0]);
      NextTickGoesOn(Next(s, others[0]), others[1..], tick);
    }
  }
}
