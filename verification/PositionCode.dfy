/** The tracker object and the remotes that poll it, proved against the integrator. */
module PositionCode {
  import opened Position

  class BlindPosition {
    var motion: Motion
    var openTime: nat
    var closeTime: nat
    var lastUs: nat
    var position: real

    constructor (openSec: nat, closeSec: nat)
      ensures View() == Blind(Idle, openSec, closeSec, 0, 0.0)
    {
      motion, openTime, closeTime, lastUs, position := Idle, openSec, closeSec, 0, 0.0;
    }

    function View(): Blind
      reads this
    {
      Blind(motion, openTime, closeTime, lastUs, position)
    }

    method Update(now: nat)
      modifies this
      ensures View() == Position.Update(old(View()), now)
    {
      var currentTravelTime := if motion == Opening then openTime else closeTime;
      if motion == Idle || currentTravelTime == 0 {
        lastUs := now;
        return;
      }
      var elapsed := now - lastUs;
      var delta := elapsed as real * 100.0 / (currentTravelTime as real * 1000000.0);
      if motion == Opening {
        position := position + delta;
        if position >= 99.5 {
          position := 100.0;
          motion := Idle;
        }
      } else if motion == Closing {
        position := position - delta;
        if position <= 0.5 {
          position := 0.0;
          motion := Idle;
        }
      }
      position := Clamp(position);
      lastUs := now;
    }

    method StartOpening(now: nat)
      modifies this
      ensures View() == Start(old(View()), Opening, now)
    {
      Update(now);
      motion := Opening;
      lastUs := now;
    }

    method StartClosing(now: nat)
      modifies this
      ensures View() == Start(old(View()), Closing, now)
    {
      Update(now);
      motion := Closing;
      lastUs := now;
    }

    method Stop(now: nat)
      modifies this
      ensures View() == Position.Stop(old(View()), now)
    {
      Update(now);
      motion := Idle;
    }

    method SetPosition(pos: real, now: nat)
      modifies this
      ensures View() == Position.SetPosition(old(View()), pos, now)
    {
      position := Clamp(pos);
      lastUs := now;
    }
  }

  /** A remote entry with its tracker. */
  class TrackedRemote {
    const tracker: BlindPosition
    var movement: Motion
    var target: real

    constructor (tracker: BlindPosition)
      ensures this.tracker == tracker && movement == Idle && target == -1.0
    {
      this.tracker, movement, target := tracker, Idle, -1.0;
    }

    function View(): Tracked
      reads this, tracker
    {
      Tracked(tracker.View(), movement, target)
    }

    /** The part cmd(Position) and cmd(Absolute) share. */
    method MoveTo(goal: nat, now: nat)
      modifies this, tracker
      ensures View() == Position.MoveTo(old(View()), goal, now)
      ensures var start := Update(old(View()).blind, now).position;
        && (movement == Opening <==> goal as real > start + 0.5)
        && (movement == Closing <==> (goal as real) < start - 0.5)
        && tracker.motion == movement
    {
      tracker.Update(now);
      var current := tracker.position;
      if goal as real > current + 0.5 {
        tracker.StartOpening(now);
        movement := Opening;
      } else if (goal as real) < current - 0.5 {
        tracker.StartClosing(now);
        movement := Closing;
      } else {
        tracker.Stop(now);
        movement := Idle;
      }
      target := goal as real;
    }

    /** cmd(Position): percent open, and the main parameter sent. */
    method CommandPosition(argument: int, now: nat) returns (main0: nat, main1: nat)
      modifies this, tracker
      ensures (View(), main0, main1) == PositionCommand(old(View()), argument, now)
    {
      var percent := Percent(argument);
      main0 := (100 - percent) * 2 % 256;
      main1 := 0x00;
      MoveTo(percent, now);
    }

    /** cmd(Absolute): percent closed. */
    method CommandAbsolute(argument: int, now: nat) returns (main0: nat, main1: nat)
      modifies this, tracker
      ensures (View(), main0, main1) == AbsoluteCommand(old(View()), argument, now)
    {
      var percent := Percent(argument);
      var val := percent * 0x0200 % 0x1_0000;
      main0 := val / 256;
      main1 := val % 256;
      MoveTo(100 - percent, now);
    }

    /** The body of the loop of updatePositions. */
    method Poll(now: nat)
      modifies this, tracker
      ensures View() == Position.Poll(old(View()), now)
    {
      tracker.Update(now);
      var pos := tracker.position;
      var moving := tracker.motion != Idle;
      if target >= 0.0 {
        if movement == Opening && pos >= target {
          pos := target;
          tracker.SetPosition(pos, now);
          tracker.Stop(now);
          moving := false;
        } else if movement == Closing && pos <= target {
          pos := target;
          tracker.SetPosition(pos, now);
          tracker.Stop(now);
          moving := false;
        }
        if !moving {
          target := -1.0;
        }
      }
      if !moving {
        movement := Idle;
      }
    }
  }

  /** updatePositions: every entry is polled once, and none disturbs another. */
  method UpdatePositions(remotes: seq<TrackedRemote>, now: nat)
    requires forall i, j :: 0 <= i < j < |remotes| ==>
      remotes[i] != remotes[j] && remotes[i].tracker != remotes[j].tracker
    modifies set r | r in remotes, set r | r in remotes :: r.tracker
    ensures forall i :: 0 <= i < |remotes| ==> remotes[i].View() == Poll(old(remotes[i].View()), now)
  {
    for k := 0 to |remotes|
      invariant forall i :: 0 <= i < k ==> remotes[i].View() == Poll(old(remotes[i].View()), now)
      invariant forall i :: k <= i < |remotes| ==> remotes[i].View() == old(remotes[i].View())
    {
      remotes[k].Poll(now);
    }
  }
}
