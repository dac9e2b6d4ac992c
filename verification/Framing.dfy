/** The plaintext frames of the ESPHome server: a zero byte, the payload length, the message type,
    the payload. A session reads the bytes its peer sent before closing. */
module Framing {
  import opened Wire
  import ProtoCode

  const MAX_PAYLOAD: nat := 16384
  const UINT16: nat := 0x1_0000

  datatype Message = Message(kind: nat, payload: seq<Byte>)

  predicate Sendable(m: Message) {
    m.kind < UINT16 && |m.payload| <= MAX_PAYLOAD
  }

  function FrameOf(m: Message): (frame: seq<Byte>)
    ensures |frame| > 0
  {
    [0x00] + Varint(|m.payload|) + Varint(m.kind) + m.payload
  }

  function Stream(ms: seq<Message>): seq<Byte> {
    if ms == [] then [] else FrameOf(ms[0]) + Stream(ms[1..])
  }

  datatype Outcome = Dispatched(message: Message, next: nat) | Closed

  /** One pass of processClientSession. */
  function Receive(stream: seq<Byte>, at: nat): (o: Outcome)
    ensures o.Dispatched? ==> at < o.next <= |stream|
  {
    if at >= |stream| || stream[at] != 0x00 then Closed
    else
      var length := ReadVarint(stream, at + 1);
      if !length.ok then Closed
      else
        var kind := ReadVarint(stream, length.offset);
        if !kind.ok || length.value > MAX_PAYLOAD || kind.offset + length.value > |stream| then Closed
        else
          var next := kind.offset + length.value;
          Dispatched(Message(kind.value % UINT16, stream[kind.offset..next]), next)
  }

  /** All messages of a session, and where it ends. */
  function ReceiveAll(stream: seq<Byte>, at: nat): (r: (seq<Message>, nat))
    decreases |stream| - at
  {
    var o := Receive(stream, at);
    if o.Closed? then ([], at)
    else
      var rest := ReceiveAll(stream, o.next);
      ([o.message] + rest.0, rest.1)
  }

  /** A short frame byte by byte. */
  lemma ShortFrame(m: Message)
    requires m.kind < 128 && |m.payload| < 128
    ensures FrameOf(m) == [0x00, |m.payload|, m.kind] + m.payload
  {
  }

  /** What is received was announced: behind a zero byte lie a length of at most 16384, which the payload
      has, and a type, and reading stops right behind the payload. */
  lemma OnlyAnnounced(stream: seq<Byte>, at: nat)
    requires Receive(stream, at).Dispatched?
    ensures var o := Receive(stream, at);
      && at < |stream| && stream[at] == 0x00
      && var length := ReadVarint(stream, at + 1);
      && length.ok && length.value == |o.message.payload| <= 16384
      && var kind := ReadVarint(stream, length.offset);
      && kind.ok && kind.value % 0x1_0000 == o.message.kind
      && kind.offset + |o.message.payload| == o.next && stream[kind.offset..o.next] == o.message.payload
  {
  }

  lemma FrameReceived(stream: seq<Byte>, at: nat, m: Message)
    requires Sendable(m) && At(stream, at, FrameOf(m))
    ensures Receive(stream, at) == Dispatched(m, at + |FrameOf(m)|)
  {
    hide Varint, ReadVarint;
    AtSplit(stream, at, [0x00] + Varint(|m.payload|) + Varint(m.kind), m.payload);
    AtSplit(stream, at, [0x00] + Varint(|m.payload|), Varint(m.kind));
    AtSplit(stream, at, [0x00], Varint(|m.payload|));
    VarintRoundTrip(stream, at + 1, |m.payload|);
    VarintRoundTrip(stream, at + 1 + |Varint(|m.payload|)|, m.kind);
    assert stream[at..at + 1][0] == 0x00;
  }

  lemma NothingReceived(stream: seq<Byte>)
    ensures ReceiveAll(stream, |stream|) == ([], |stream|)
  {
  }

  /** Reading the concatenation of any list of frames returns exactly the messages, and stops at the
      end of the last frame. */
  lemma {:induction false} StreamRoundTrip(stream: seq<Byte>, at: nat, ms: seq<Message>)
    requires forall m :: m in ms ==> Sendable(m)
    requires At(stream, at, Stream(ms)) && at + |Stream(ms)| == |stream|
    ensures ReceiveAll(stream, at) == (ms, |stream|)
    decreases |ms|
  {
    hide FrameOf, Receive;
    if ms == [] {
      assert at == |stream|;
      NothingReceived(stream);
    } else {
      assert [ms[0]] + ms[1..] == ms;
      AtSplit(stream, at, FrameOf(ms[0]), Stream(ms[1..]));
      FrameReceived(stream, at, ms[0]);
      StreamRoundTrip(stream, at + |FrameOf(ms[0])|, ms[1..]);
    }
  }

  /** A frame that announces more than 16384 bytes ends the session, whatever else it holds. */
  lemma OversizedRefused(stream: seq<Byte>, at: nat, m: Message)
    requires |m.payload| > MAX_PAYLOAD && |m.payload| < UINT64 && At(stream, at, FrameOf(m))
    ensures Receive(stream, at) == Closed
  {
    hide Varint, ReadVarint;
    AtSplit(stream, at, [0x00] + Varint(|m.payload|) + Varint(m.kind), m.payload);
    AtSplit(stream, at, [0x00] + Varint(|m.payload|), Varint(m.kind));
    AtSplit(stream, at, [0x00], Varint(|m.payload|));
    VarintRoundTrip(stream, at + 1, |m.payload|);
  }

  // ---------------------------------------------------------------- the code

  /** What sendFrame puts together before it writes to the socket. */
  method BuildFrame(m: Message) returns (bytes: seq<Byte>)
    ensures bytes == FrameOf(m)
  {
    var msg := new ProtoCode.ProtoWriter();
    msg.buffer := msg.buffer + [0x00];
    msg.WriteVarint(|m.payload|);
    msg.WriteVarint(m.kind);
    if |m.payload| > 0 {
      msg.buffer := msg.buffer + m.payload;
    }
    bytes := msg.buffer;
    assert m.payload == [] ==> FrameOf(m) == [0x00] + Varint(|m.payload|) + Varint(m.kind);
  }

  class ClientSession {
    const stream: seq<Byte>
    var at: nat

    constructor (stream: seq<Byte>)
      ensures this.stream == stream && at == 0
    {
      this.stream, this.at := stream, 0;
    }

    /** The two loops that read a varint byte by byte. */
    method ReceiveVarint() returns (ok: bool, value: nat)
      modifies this`at
      ensures Read(ok, value, at) == ReadVarint(stream, old(at))
    {
      value := 0;
      var shift, k := 0, 0;
      while true
        invariant k < 10 && shift == 7 * k && value < UINT64
        invariant ReadGroups(stream, at, k, value) == ReadVarint(stream, old(at))
        decreases 10 - k
      {
        if at >= |stream| {
          return false, value;
        }
        var b := stream[at];
        at := at + 1;
        value := (value + Placed(b % 128, k)) % UINT64;
        if b < 128 {
          break;
        }
        shift := shift + 7;
        if shift >= 64 {
          return false, value;
        }
        k := k + 1;
      }
      ok := true;
    }

    /** recv returns some of the bytes asked for, at least one; none once the peer has closed. */
    method Recv(most: nat) returns (chunk: seq<Byte>)
      requires most > 0
      modifies this`at
      ensures at == old(at) + |chunk| && |chunk| <= most
      ensures old(at) < |stream| <==> chunk != []
      ensures chunk != [] ==> At(stream, old(at), chunk)
    {
      if at >= |stream| {
        return [];
      }
      var n: nat :| 1 <= n <= most && at + n <= |stream|;
      chunk := stream[at..at + n];
      at := at + n;
    }

    method ProcessClientSession() returns (o: Outcome)
      modifies this`at
      ensures o == Receive(stream, old(at))
      ensures o.Dispatched? ==> at == o.next
    {
      ghost var start := at;
      if at >= |stream| {
        return Closed;
      }
      var preamble := stream[at];
      at := at + 1;
      if preamble != 0x00 {
        return Closed;
      }
      var ok, length := ReceiveVarint();
      if !ok {
        return Closed;
      }
      var rawType;
      ok, rawType := ReceiveVarint();
      if !ok || length > MAX_PAYLOAD {
        return Closed;
      }
      ghost var from := at;
      var payload: seq<Byte> := [];
      while |payload| < length
        invariant |payload| <= length && at == from + |payload| && (payload != [] ==> At(stream, from, payload))
        decreases length - |payload|
      {
        var chunk := Recv(length - |payload|);
        if chunk == [] {
          return Closed;
        }
        Joined(stream, from, payload, chunk);
        payload := payload + chunk;
      }
      o := Dispatched(Message(rawType % UINT16, payload), at);
    }
  }

  lemma Joined(stream: seq<Byte>, at: nat, x: seq<Byte>, y: seq<Byte>)
    requires (x != [] ==> At(stream, at, x)) && At(stream, at + |x|, y)
    ensures At(stream, at, x + y)
  {
    assert stream[at..at + |x + y|] == stream[at..at + |x|] + stream[at + |x|..at + |x| + |y|];
  }
}
