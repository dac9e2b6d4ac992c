/** The reading loop of the receiver over the turns it takes. */
module FifoCode {
  import opened RadioTypes
  import opened RadioFrame

  class Reader {
    const payload: array<bv8>
    var bufferLength: nat
    var rxOverflow: bool
    var emptySinceUs: nat

    ghost predicate Valid()
      reads this
    {
      payload.Length == MAX_FRAME_LEN && bufferLength <= MAX_FRAME_LEN
    }

    function View(): Fifo
      requires Valid()
      reads this, payload
    {
      Fifo(payload[..bufferLength], rxOverflow, emptySinceUs)
    }

    constructor ()
      ensures fresh(payload) && Valid() && View() == EMPTY
    {
      payload := new bv8[MAX_FRAME_LEN](_ => 0);
      bufferLength, rxOverflow, emptySinceUs := 0, false, 0;
    }

    method Store(value: bv8)
      requires Valid()
      modifies this, payload
      ensures Valid() && View() == Stored(old(View()), value)
    {
      emptySinceUs := 0;
      if bufferLength < MAX_FRAME_LEN {
        payload[bufferLength] := value;
        bufferLength := bufferLength + 1;
      } else {
        rxOverflow := true;
      }
    }

    method Listen(ticks: seq<Tick>, startedUs: nat, limits: Limits)
      requires Valid()
      modifies this, payload
      ensures Valid() && View() == Collect(ticks, startedUs, limits, old(View()))
    {
      var i := 0;
      while i < |ticks| && ticks[i].us - startedUs < limits.timeoutUs
        invariant i <= |ticks| && Valid()
        invariant Collect(ticks[i..], startedUs, limits, View()) == Collect(ticks, startedUs, limits, old(View()))
      {
        var tick := ticks[i];
        assert ticks[i..][1..] == ticks[i + 1..];
        i := i + 1;
        if tick.fifo.Some? {
          Store(tick.fifo.value);
          var expectedLength := Length(payload[0]) + 1;
          if expectedLength >= HEADER && expectedLength <= MAX_FRAME_LEN && bufferLength >= expectedLength {
            break;
          }
          continue;
        }
        if emptySinceUs == 0 {
          emptySinceUs := tick.us;
        } else if tick.us - emptySinceUs >= limits.stableEmptyUs {
          break;
        }
      }
    }

    method Check() returns (r: Option<seq<bv8>>)
      requires Valid()
      modifies this`bufferLength
      ensures r == Checked(old(View()))
    {
      if bufferLength == 0 {
        return None;
      }
      ghost var all := payload[..bufferLength];
      var expectedLength := Length(payload[0]) + 1;
      assert all[0] == payload[0];
      assert expectedLength <= bufferLength ==> all[..expectedLength] == payload[..expectedLength];
      if !rxOverflow && expectedLength >= HEADER && expectedLength <= MAX_FRAME_LEN && bufferLength > expectedLength {
        bufferLength := expectedLength;
      }
      if rxOverflow || bufferLength < HEADER || expectedLength < HEADER || expectedLength > MAX_FRAME_LEN ||
         bufferLength != expectedLength
      {
        return None;
      }
      r := Some(payload[..bufferLength]);
    }
  }

  method ReceiveFrame(ticks: seq<Tick>, startedUs: nat, twoWScanActive: bool) returns (r: Option<seq<bv8>>)
    ensures r == Receive(ticks, startedUs, twoWScanActive)
  {
    var reader := new Reader();
    reader.Listen(ticks, startedUs, LimitsFor(twoWScanActive));
    r := reader.Check();
  }
}
