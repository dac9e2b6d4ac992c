/** The position estimate of a blind, over real numbers: a time-driven integrator that is polled at
    arbitrary moments, and the remotes that steer it to a target. Times are microseconds; the clock
    stands still within one call. */
module Position {

  datatype Motion = Idle | Opening | Closing

  /** Travel times are whole seconds; 0 means unknown. */
  datatype Blind = Blind(motion: Motion, openTime: nat, closeTime: nat, lastUs: nat, position: real)

  function Clamp(p: real): real {
    if p < 0.0 then 0.0 else if p > 100.0 then 100.0 else p
  }

  function Travel(b: Blind): nat {
    if b.motion == Opening then b.openTime else b.closeTime
  }

  /** Percent travelled in `elapsed` microseconds. */
  function Delta(elapsed: int, travel: nat): real
    requires travel > 0
  {
    elapsed as real * 100.0 / (travel as real * 1000000.0)
  }

  function Update(b: Blind, now: nat): Blind {
    if b.motion == Idle || Travel(b) == 0 then b.(lastUs := now)
    else
      var delta := Delta(now - b.lastUs, Travel(b));
      if b.motion == Opening then
        var p := b.position + delta;
        if p >= 99.5 then b.(position := 100.0, motion := Idle, lastUs := now)
        else b.(position := Clamp(p), lastUs := now)
      else
        var p := b.position - delta;
        if p <= 0.5 then b.(position := 0.0, motion := Idle, lastUs := now)
        else b.(position := Clamp(p), lastUs := now)
  }

  function Start(b: Blind, motion: Motion, now: nat): Blind {
    Update(b, now).(motion := motion, lastUs := now)
  }

  function Stop(b: Blind, now: nat): Blind {
    Update(b, now).(motion := Idle)
  }

  function SetPosition(b: Blind, p: real, now: nat): Blind {
    b.(position := Clamp(p), lastUs := now)
  }

  predicate InRange(b: Blind) {
    0.0 <= b.position <= 100.0
  }

  // ---------------------------------------------------------------- any polling schedule

  lemma DeltaSplit(a: int, b: int, travel: nat)
    requires travel > 0
    ensures Delta(a, travel) + Delta(b, travel) == Delta(a + b, travel)
  {
    var d := travel as real * 1000000.0;
    assert a as real * 100.0 + b as real * 100.0 == (a + b) as real * 100.0;
    assert a as real * 100.0 / d + b as real * 100.0 / d == (a as real * 100.0 + b as real * 100.0) / d;
  }

  lemma DeltaPositive(a: nat, travel: nat)
    requires travel > 0
    ensures Delta(a, travel) >= 0.0
  {
  }

  /** Updating stays within 0..100 and moves in the direction of the motion only. */
  lemma UpdateMonotone(b: Blind, now: nat)
    requires InRange(b) && b.lastUs <= now
    ensures InRange(Update(b, now))
    ensures b.motion == Opening ==> Update(b, now).position >= b.position
    ensures b.motion == Closing ==> Update(b, now).position <= b.position
    ensures b.motion == Idle ==> Update(b, now).position == b.position
  {
    if Travel(b) > 0 {
      DeltaPositive(now - b.lastUs, Travel(b));
    }
  }

  lemma UpdateTwice(b: Blind, t: nat, u: nat)
    requires InRange(b) && b.lastUs <= t <= u
    ensures Update(Update(b, t), u) == Update(b, u)
  {
    if b.motion != Idle && Travel(b) > 0 {
      DeltaSplit(t - b.lastUs, u - t, Travel(b));
      DeltaPositive(t - b.lastUs, Travel(b));
      DeltaPositive(u - t, Travel(b));
    }
  }

  function UpdateAll(b: Blind, times: seq<nat>): Blind
    decreases |times|
  {
    if times == [] then b else UpdateAll(Update(b, times[0]), times[1..])
  }

  /** The times are in order, none before `from`. */
  predicate InOrder(from: nat, times: seq<nat>)
    decreases |times|
  {
    times != [] ==> from <= times[0] && InOrder(times[0], times[1..])
  }

  lemma {:induction false} LastIsLatest(from: nat, times: seq<nat>)
    requires InOrder(from, times) && times != []
    ensures from <= times[|times| - 1]
    decreases |times|
  {
    if |times| > 1 {
      LastIsLatest(times[0], times[1..]);
    }
  }

  /** However often it is polled, the position is that of a single update at the last poll. */
  lemma {:induction false} PollingDoesNotMatter(b: Blind, times: seq<nat>)
    requires InRange(b) && InOrder(b.lastUs, times) && times != []
    ensures UpdateAll(b, times) == Update(b, times[|times| - 1])
    decreases |times|
  {
    if |times| == 1 {
      assert UpdateAll(Update(b, times[0]), []) == Update(b, times[0]);
    } else {
      var c := Update(b, times[0]);
      UpdateMonotone(b, times[0]);
      assert c.lastUs == times[0];
      PollingDoesNotMatter(c, times[1..]);
      LastIsLatest(times[0], times[1..]);
      UpdateTwice(b, times[0], times[|times| - 1]);
    }
  }

  // ---------------------------------------------------------------- steering to a target

  /** A remote entry; a target below 0 is none. */
  datatype Tracked = Tracked(blind: Blind, movement: Motion, target: real)

  /** What cmd(Position) and cmd(Absolute) do to the entry, for a target in percent open. */
  function MoveTo(r: Tracked, goal: nat, now: nat): Tracked {
    var b := Update(r.blind, now);
    var g := goal as real;
    if g > b.position + 0.5 then Tracked(Start(b, Opening, now), Opening, g)
    else if g < b.position - 0.5 then Tracked(Start(b, Closing, now), Closing, g)
    else Tracked(Stop(b, now), Idle, g)
  }

  /** One remote in one pass of updatePositions. */
  function Poll(r: Tracked, now: nat): Tracked {
    var b := Update(r.blind, now);
    var reached := r.target >= 0.0 &&
      ((r.movement == Opening && b.position >= r.target) || (r.movement == Closing && b.position <= r.target));
    if reached then Tracked(Stop(SetPosition(b, r.target, now), now), Idle, -1.0)
    else if b.motion == Idle then Tracked(b, Idle, if r.target >= 0.0 then -1.0 else r.target)
    else r.(blind := b)
  }

  function PollAll(r: Tracked, times: seq<nat>): Tracked
    decreases |times|
  {
    if times == [] then r else PollAll(Poll(r, times[0]), times[1..])
  }

  /** Where the motion ends: at the goal, but at the ends of the scale half a percent before it. */
  function Edge(motion: Motion, goal: nat): real {
    if motion == Opening && goal == 100 then 99.5 else if motion == Closing && goal == 0 then 0.5 else goal as real
  }

  /** `elapsed` microseconds after leaving `start`, the blind has reached the edge. */
  predicate Due(motion: Motion, goal: nat, start: real, travel: nat, elapsed: int)
    requires travel > 0
  {
    if motion == Opening then start + Delta(elapsed, travel) >= Edge(motion, goal)
    else start - Delta(elapsed, travel) <= Edge(motion, goal)
  }

  lemma QuotientAtLeast(n: real, d: real, q: real)
    requires d > 0.0
    ensures n / d >= q <==> n >= q * d
  {
    if n / d >= q {
      assert (n / d - q) * d >= 0.0;
      assert (n / d) * d == n;
    }
    if n >= q * d {
      assert (n - q * d) / d >= 0.0;
      assert (n - q * d) / d == n / d - q;
    }
  }

  /** On the way from `start`, left at `t0`, and not there yet. */
  predicate Flying(r: Tracked, goal: nat, start: real, t0: nat) {
    var b := r.blind;
    && r.movement == b.motion != Idle && r.target == goal as real && Travel(b) > 0 && t0 <= b.lastUs
    && b.position == (if b.motion == Opening then start + Delta(b.lastUs - t0, Travel(b))
                      else start - Delta(b.lastUs - t0, Travel(b)))
    && !Due(b.motion, goal, start, Travel(b), b.lastUs - t0)
  }

  /** At rest at `p`, with no target left. */
  predicate Resting(r: Tracked, p: real) {
    r.blind.motion == Idle && r.blind.position == p && r.movement == Idle && r.target < 0.0
  }

  lemma PollFlying(r: Tracked, goal: nat, start: real, t0: nat, now: nat)
    requires Flying(r, goal, start, t0) && InRange(r.blind) && goal <= 100 && r.blind.lastUs <= now
    ensures if Due(r.blind.motion, goal, start, Travel(r.blind), now - t0)
            then Resting(Poll(r, now), goal as real)
            else Flying(Poll(r, now), goal, start, t0) && Poll(r, now).blind.motion == r.blind.motion
    ensures InRange(Poll(r, now).blind) && Poll(r, now).blind.lastUs == now
    ensures Poll(r, now).blind.openTime == r.blind.openTime && Poll(r, now).blind.closeTime == r.blind.closeTime
  {
    hide Delta;
    var b := r.blind;
    DeltaSplit(b.lastUs - t0, now - b.lastUs, Travel(b));
    DeltaPositive(now - b.lastUs, Travel(b));
    DeltaSplit(0, 0, Travel(b));
    assert b.lastUs - t0 + (now - b.lastUs) == now - t0;
    UpdateMonotone(b, now);
  }

  lemma PollResting(r: Tracked, p: real, now: nat)
    requires Resting(r, p)
    ensures Resting(Poll(r, now), p)
  {
  }

  lemma {:induction false} StaysResting(r: Tracked, p: real, times: seq<nat>)
    requires Resting(r, p)
    ensures Resting(PollAll(r, times), p)
    decreases |times|
  {
    if times != [] {
      PollResting(r, p, times[0]);
      StaysResting(Poll(r, times[0]), p, times[1..]);
    }
  }

  lemma DueStaysDue(motion: Motion, goal: nat, start: real, travel: nat, a: nat, b: nat)
    requires travel > 0 && a <= b && Due(motion, goal, start, travel, a)
    ensures Due(motion, goal, start, travel, b)
  {
    DeltaSplit(a, b - a, travel);
    DeltaPositive(b - a, travel);
  }

  lemma {:induction false} FlightEnds(r: Tracked, goal: nat, start: real, t0: nat, times: seq<nat>)
    requires Flying(r, goal, start, t0) && InRange(r.blind) && goal <= 100
    requires InOrder(r.blind.lastUs, times) && times != []
    ensures var q := PollAll(r, times);
      if Due(r.blind.motion, goal, start, Travel(r.blind), times[|times| - 1] - t0)
      then Resting(q, goal as real) else Flying(q, goal, start, t0)
    decreases |times|
  {
    var motion, travel := r.blind.motion, Travel(r.blind);
    var q := Poll(r, times[0]);
    PollFlying(r, goal, start, t0, times[0]);
    if Due(motion, goal, start, travel, times[0] - t0) {
      StaysResting(q, goal as real, times[1..]);
      LastIsLatest(r.blind.lastUs, times);
      if |times| > 1 {
        LastIsLatest(times[0], times[1..]);
      }
      DueStaysDue(motion, goal, start, travel, times[0] - t0, times[|times| - 1] - t0);
    } else if |times| == 1 {
      assert PollAll(q, times[1..]) == q;
    } else {
      FlightEnds(q, goal, start, t0, times[1..]);
    }
  }

  /** After a command with a goal, whatever the polling schedule: no motion when the position is
      within half a percent, and then it stays; otherwise the remote is on its way until the first
      poll at which the travel time to the edge has passed, and from that poll on at rest exactly at
      the goal. */
  lemma MotionEndsOnTime(r: Tracked, goal: nat, now: nat, times: seq<nat>)
    requires InRange(r.blind) && r.blind.lastUs <= now && goal <= 100
    requires r.blind.openTime > 0 && r.blind.closeTime > 0
    requires InOrder(now, times) && times != []
    ensures var start := Update(r.blind, now).position;
      var r1 := MoveTo(r, goal, now);
      var q := PollAll(r1, times);
      if r1.movement == Idle then goal as real - 0.5 <= start <= goal as real + 0.5 && Resting(q, start)
      else if Due(r1.movement, goal, start, Travel(r1.blind), times[|times| - 1] - now) then Resting(q, goal as real)
      else Flying(q, goal, start, now)
  {
    UpdateMonotone(r.blind, now);
    var start := Update(r.blind, now).position;
    var r1 := MoveTo(r, goal, now);
    if r1.movement == Idle {
      StopKeeps(r.blind, now);
      assert Resting(Poll(r1, times[0]), start);
      StaysResting(Poll(r1, times[0]), start, times[1..]);
    } else {
      StartKeeps(r.blind, now, r1.movement);
      FlightEnds(r1, goal, start, now, times);
    }
  }

  lemma StopKeeps(b: Blind, now: nat)
    requires InRange(b) && b.lastUs <= now
    ensures Stop(Update(b, now), now) == Update(b, now).(motion := Idle)
  {
    UpdateTwice(b, now, now);
  }

  lemma StartKeeps(b: Blind, now: nat, motion: Motion)
    requires InRange(b) && b.lastUs <= now
    ensures Start(Update(b, now), motion, now) == Update(b, now).(motion := motion, lastUs := now)
  {
    UpdateTwice(b, now, now);
  }

  /** The whole distance from `start` to the goal, at the travel time's speed, in microseconds. */
  function FullTime(goal: nat, start: real, travel: nat): real {
    var distance := if goal as real > start then goal as real - start else start - goal as real;
    distance * travel as real * 10000.0
  }

  /** Away from the end it moves to, a motion is due exactly when its full time has passed. */
  lemma DueAtFullTime(motion: Motion, goal: nat, start: real, travel: nat, elapsed: nat)
    requires travel > 0 && Towards(motion, goal, start) && !ToTheEnd(motion, goal)
    ensures Due(motion, goal, start, travel, elapsed) <==> elapsed as real >= FullTime(goal, start, travel)
  {
    var distance := if motion == Opening then goal as real - start else start - goal as real;
    var e, d := elapsed as real, travel as real;
    QuotientAtLeast(e * 100.0, d * 1000000.0, distance);
    assert distance * (d * 1000000.0) == distance * d * 10000.0 * 100.0;
  }

  /** A motion in its direction. */
  predicate Towards(motion: Motion, goal: nat, start: real) {
    (motion == Opening && start < goal as real) || (motion == Closing && start > goal as real)
  }

  predicate ToTheEnd(motion: Motion, goal: nat) {
    (motion == Opening && goal == 100) || (motion == Closing && goal == 0)
  }

  /** At the end it moves to, it is due earlier. */
  lemma DueBeforeFullTime(motion: Motion, goal: nat, start: real, travel: nat) returns (elapsed: nat)
    requires travel > 0 && Towards(motion, goal, start) && ToTheEnd(motion, goal)
    ensures Due(motion, goal, start, travel, elapsed) && (elapsed as real) < FullTime(goal, start, travel)
  {
    var left := if motion == Opening then 99.5 - start else start - 0.5;
    var d := travel as real;
    assert d >= 1.0;
    assert (if goal as real > start then goal as real - start else start - goal as real) == left + 0.5;
    HalfPercent(left, d);
    elapsed := if left <= 0.0 then 0 else (left * d * 10000.0).Floor + 1;
    QuotientAtLeast(elapsed as real * 100.0, d * 1000000.0, left);
  }

  /** Half a percent of the travel time is at least 5000 microseconds. */
  lemma HalfPercent(left: real, d: real)
    requires d >= 1.0 && left + 0.5 > 0.0
    ensures (left + 0.5) * d * 10000.0 >= left * d * 10000.0 + 5000.0
    ensures left * (d * 1000000.0) == left * d * 10000.0 * 100.0
    ensures left <= 0.0 ==> left * (d * 1000000.0) <= 0.0 && (left + 0.5) * d * 10000.0 > 0.0
    ensures left > 0.0 ==> left * d * 10000.0 > 0.0
  {
    assert (left + 0.5) * d == left * d + 0.5 * d;
    if left > 0.0 {
      assert left * d > 0.0;
    } else {
      assert left * d <= 0.0;
      assert (left + 0.5) * d > 0.0;
    }
  }

  /** A motion lasts |goal - start| * travelTime / 100 seconds, to the microsecond, exactly when it does
      not go to the end of the scale it moves towards. */
  lemma LastsFullTimeIff(motion: Motion, goal: nat, start: real, travel: nat)
    requires travel > 0 && Towards(motion, goal, start)
    ensures
      (forall elapsed: nat ::
         Due(motion, goal, start, travel, elapsed) <==> elapsed as real >= FullTime(goal, start, travel))
      <==> !ToTheEnd(motion, goal)
  {
    if ToTheEnd(motion, goal) {
      var elapsed := DueBeforeFullTime(motion, goal, start, travel);
    } else {
      forall elapsed: nat
        ensures Due(motion, goal, start, travel, elapsed) <==> elapsed as real >= FullTime(goal, start, travel)
      {
        DueAtFullTime(motion, goal, start, travel, elapsed);
      }
    }
  }

  /** A command moves the blind towards its goal: it opens exactly if the goal lies more than half a
      percent above the position, closes exactly if it lies more than that below, and stops otherwise. */
  lemma CommandAimsAtGoal(r: Tracked, goal: nat, now: nat)
    requires InRange(r.blind) && r.blind.lastUs <= now
    ensures var start, r1 := Update(r.blind, now).position, MoveTo(r, goal, now);
      && (r1.movement == Opening <==> goal as real > start + 0.5)
      && (r1.movement == Closing <==> (goal as real) < start - 0.5)
      && r1.blind.motion == r1.movement && r1.target == goal as real && r1.blind.position == start
      && r1.blind.openTime == r.blind.openTime && r1.blind.closeTime == r.blind.closeTime
  {
    var b := Update(r.blind, now);
    StopKeeps(r.blind, now);
    StartKeeps(r.blind, now, Opening);
    StartKeeps(r.blind, now, Closing);
  }

  /** How far a blind sent from `start` travels: to the goal, but to an end of the scale half a percent
      less, where it snaps. */
  function Distance(goal: nat, start: real): real {
    var whole := if start < goal as real then goal as real - start else start - goal as real;
    if goal == 0 || goal == 100 then whole - 0.5 else whole
  }

  /** How long that takes. */
  function TravelSeconds(goal: nat, start: real, travel: nat): real {
    Distance(goal, start) * travel as real / 100.0
  }

  lemma DueAtDistance(motion: Motion, goal: nat, start: real, travel: nat, elapsed: nat)
    requires travel > 0 && 0.0 <= start <= 100.0 && goal <= 100
    requires motion == (if start < goal as real then Opening else Closing) && start != goal as real
    ensures Due(motion, goal, start, travel, elapsed) <==>
      elapsed as real / 1000000.0 >= TravelSeconds(goal, start, travel)
  {
    var e, d, left := elapsed as real, travel as real, Distance(goal, start);
    QuotientAtLeast(e * 100.0, d * 1000000.0, left);
    InSeconds(e, d, left);
  }

  lemma InSeconds(e: real, d: real, left: real)
    ensures e * 100.0 >= left * (d * 1000000.0) <==> e / 1000000.0 >= left * d / 100.0
  {
    assert left * (d * 1000000.0) == left * d * 1000000.0;
  }

  /** The time a command takes: sent to a goal more than half a percent away, the remote is at rest there
      exactly when its last poll comes distance * travelTime / 100 seconds after the command or later,
      with the travel time of the direction the goal lies in. */
  lemma RestsAfterTravelTime(r: Tracked, goal: nat, now: nat, times: seq<nat>)
    requires InRange(r.blind) && r.blind.lastUs <= now && goal <= 100
    requires r.blind.openTime > 0 && r.blind.closeTime > 0
    requires InOrder(now, times) && times != []
    requires var start := Update(r.blind, now).position; start < goal as real - 0.5 || start > goal as real + 0.5
    ensures var start := Update(r.blind, now).position;
      var travel := if start < goal as real then r.blind.openTime else r.blind.closeTime;
      Resting(PollAll(MoveTo(r, goal, now), times), goal as real) <==>
        (times[|times| - 1] - now) as real / 1000000.0 >= TravelSeconds(goal, start, travel)
  {
    hide TravelSeconds, Due, MoveTo, Update, PollAll;
    var start := Update(r.blind, now).position;
    var r1 := MoveTo(r, goal, now);
    UpdateMonotone(r.blind, now);
    CommandAimsAtGoal(r, goal, now);
    LastIsLatest(now, times);
    MotionEndsOnTime(r, goal, now, times);
    var travel := if start < goal as real then r.blind.openTime else r.blind.closeTime;
    assert Travel(r1.blind) == travel;
    DueAtDistance(r1.movement, goal, start, travel, times[|times| - 1] - now);
  }

  /** So a remote sent to an end of the scale can be polled at rest there before its full time. */
  lemma EndsEarlyAtTheEnds(r: Tracked, goal: nat, now: nat) returns (poll: nat)
    requires InRange(r.blind) && r.blind.lastUs <= now && r.blind.openTime > 0 && r.blind.closeTime > 0
    requires ToTheEnd(MoveTo(r, goal, now).movement, goal)
    ensures now <= poll && Resting(PollAll(MoveTo(r, goal, now), [poll]), goal as real)
    ensures var r1 := MoveTo(r, goal, now);
            ((poll - now) as real) < FullTime(goal, Update(r.blind, now).position, Travel(r1.blind))
  {
    UpdateMonotone(r.blind, now);
    var r1 := MoveTo(r, goal, now);
    StartKeeps(r.blind, now, r1.movement);
    var elapsed := DueBeforeFullTime(r1.movement, goal, Update(r.blind, now).position, Travel(r1.blind));
    poll := now + elapsed;
    MotionEndsOnTime(r, goal, now, [poll]);
  }

  // ---------------------------------------------------------------- the two commands

  function Percent(argument: int): nat {
    if argument < 0 then 0 else if argument > 100 then 100 else argument
  }

  /** cmd(Position) takes percent open and cmd(Absolute) percent closed; each stores the goal and
      sends two bytes of the main parameter. */
  function PositionCommand(r: Tracked, argument: int, now: nat): (o: (Tracked, nat, nat)) {
    (MoveTo(r, Percent(argument), now), (100 - Percent(argument)) * 2 % 256, 0)
  }

  function AbsoluteCommand(r: Tracked, argument: int, now: nat): (o: (Tracked, nat, nat)) {
    var v := Percent(argument) * 0x0200 % 0x1_0000;
    (MoveTo(r, 100 - Percent(argument), now), v / 256, v % 256)
  }

  /** The two scales are mirror images: a position and its complement steer the estimate and the blind
      alike, and different positions send different bytes. Closed is 200, or 51200 in both bytes. */
  lemma CommandsMirror(r: Tracked, a: int, b: int, now: nat)
    requires 0 <= a <= 100 && 0 <= b <= 100
    ensures PositionCommand(r, a, now) == AbsoluteCommand(r, 100 - a, now)
    ensures a != b ==> PositionCommand(r, a, now).1 != PositionCommand(r, b, now).1
    ensures var o := PositionCommand(r, a, now); o.1 == 200 - 2 * a && o.2 == 0 && o.0 == MoveTo(r, a, now)
    ensures var o := AbsoluteCommand(r, a, now); o.1 * 256 + o.2 == 512 * a && o.0 == MoveTo(r, 100 - a, now)
  {
    var c := 100 - a;
    assert c * 0x0200 % 0x1_0000 == c * 2 * 256;
  }

  /** Arguments outside the scale count as its ends. */
  lemma CommandsClamp(r: Tracked, argument: int, now: nat)
    ensures argument < 0 ==> PositionCommand(r, argument, now) == PositionCommand(r, 0, now)
    ensures argument < 0 ==> AbsoluteCommand(r, argument, now) == AbsoluteCommand(r, 0, now)
    ensures argument > 100 ==> PositionCommand(r, argument, now) == PositionCommand(r, 100, now)
    ensures argument > 100 ==> AbsoluteCommand(r, argument, now) == AbsoluteCommand(r, 100, now)
  {
  }
}
