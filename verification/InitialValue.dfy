/** The 16-bit shift-register checksum and the initial values built from it. The repository holds two
    implementations of each, one for two-way and one for one-way frames. */
module InitialValue {
  import opened RadioTypes
  import opened Aes

  datatype Checksum = Checksum(sum1: bv8, sum2: bv8)

  /** computeChecksum of crypto2Wutils.h: the byte goes into the second sum, then both turn. */
  function TwoWayStep(frameByte: bv8, c: Checksum): Checksum {
    Turn(Into(frameByte, c.sum2), c.sum1)
  }

  function Into(frameByte: bv8, sum2: bv8): bv8 {
    frameByte ^ sum2
  }

  function Turn(t: bv8, sum1: bv8): Checksum {
    var shifted := ((sum1 & 0x7F) << 1) & 0xFF;
    var carried := if t >= 128 then shifted | 1 else shifted;
    if sum1 & 0x80 == 0 then Checksum(carried, (t << 1) & 0xFF)
    else Checksum(carried ^ 0x55, ((t << 1) ^ 0x5B) & 0xFF)
  }

  /** computeChecksum of iohcCryptoHelpers.cpp. */
  function OneWayStep(frameByte: bv8, c: Checksum): Checksum {
    OneWayTurn(Into(frameByte, c.sum2), c.sum1)
  }

  function OneWayTurn(t: bv8, sum1: bv8): Checksum {
    var sum2 := ((sum1 & 0x7f) << 1) & 0xff;
    var sum2' := if t >= 0x80 then sum2 | 1 else sum2;
    if sum1 & 0x80 == 0 then Checksum(sum2', (t << 1) & 0xff)
    else Checksum(sum2' ^ 0x55, ((t << 1) ^ 0x5b) & 0xff)
  }

  lemma StepsAgree(frameByte: bv8, c: Checksum)
    ensures OneWayStep(frameByte, c) == TwoWayStep(frameByte, c)
  {
    TurnsAgree(Into(frameByte, c.sum2), c.sum1);
  }

  lemma TurnsAgree(t: bv8, sum1: bv8)
    ensures OneWayTurn(t, sum1) == Turn(t, sum1)
  {
  }

  /** The second sum a turn started from: the lowest bit of the result tells whether it was masked. */
  function TurnedFrom(r: Checksum): bv8 {
    if r.sum2 & 1 == 1 then ((r.sum2 ^ 0x5b) >> 1) | (((r.sum1 ^ 0x55) & 1) << 7)
    else (r.sum2 >> 1) | ((r.sum1 & 1) << 7)
  }

  /** The first sum it started from. */
  function FirstFrom(r: Checksum): bv8 {
    if r.sum2 & 1 == 1 then ((r.sum1 ^ 0x55) >> 1) | 0x80 else r.sum1 >> 1
  }

  lemma PlainTurn(t: bv8, sum1: bv8)
    requires sum1 & 0x80 == 0
    ensures Turn(t, sum1) == Checksum((sum1 << 1) | (t >> 7), t << 1)
  {
  }

  lemma PlainTurnUndone(t: bv8, sum1: bv8)
    requires sum1 & 0x80 == 0
    ensures var r := Checksum((sum1 << 1) | (t >> 7), t << 1); TurnedFrom(r) == t && FirstFrom(r) == sum1
  {
  }

  lemma MaskedTurnUndone(t: bv8, sum1: bv8)
    requires sum1 & 0x80 != 0
    ensures TurnedFrom(Turn(t, sum1)) == t && FirstFrom(Turn(t, sum1)) == sum1
  {
  }

  lemma TurnUndone(t: bv8, sum1: bv8)
    ensures TurnedFrom(Turn(t, sum1)) == t && FirstFrom(Turn(t, sum1)) == sum1
  {
    if sum1 & 0x80 == 0 {
      PlainTurn(t, sum1);
      PlainTurnUndone(t, sum1);
    } else {
      MaskedTurnUndone(t, sum1);
    }
  }

  lemma XorInjective(a: bv8, x: bv8, y: bv8)
    ensures Into(a, x) == Into(a, y) ==> x == y
    ensures Into(x, a) == Into(y, a) ==> x == y
  {
  }

  /** A step loses nothing: from its result and the byte the state before it is known, and from its
      result and the state the byte. */
  lemma StepInjective(a: bv8, c: Checksum, b: bv8, d: Checksum)
    requires TwoWayStep(a, c) == TwoWayStep(b, d)
    ensures a == b ==> c == d
    ensures c == d ==> a == b
  {
    hide Turn, TurnedFrom, FirstFrom, Into;
    TurnUndone(Into(a, c.sum2), c.sum1);
    TurnUndone(Into(b, d.sum2), d.sum1);
    XorInjective(a, c.sum2, d.sum2);
    XorInjective(c.sum2, a, b);
  }

  /** The two sums as one 16-bit register. */
  function Register(c: Checksum): bv16 {
    Wide(c.sum1, c.sum2)
  }

  function Wide(high: bv8, low: bv8): bv16 {
    ((high as bv16) << 8) | (low as bv16)
  }

  function With(w: bv16, frameByte: bv8): bv16 {
    w ^ (frameByte as bv16)
  }

  predicate Top(w: bv16) {
    w & 0x8000 != 0
  }

  /** One turn of a 16-bit shift register with feedback 0x555B. */
  function Shifted(w: bv16, top: bool): bv16 {
    (w << 1) ^ (if top then 0x555B else 0)
  }

  /** A step is such a turn, with the byte put in at the bottom. */
  lemma StepIsShift(frameByte: bv8, c: Checksum)
    ensures var w := Register(c); Register(TwoWayStep(frameByte, c)) == Shifted(With(w, frameByte), Top(w))
  {
    hide Wide, With, Top, Shifted, Turn, Into;
    BytePutIn(c.sum1, c.sum2, frameByte);
    TopIsFirst(c.sum1, c.sum2);
    if c.sum1 & 0x80 == 0 {
      PlainShift(Into(frameByte, c.sum2), c.sum1);
    } else {
      MaskedShift(Into(frameByte, c.sum2), c.sum1);
    }
  }

  lemma BytePutIn(high: bv8, low: bv8, frameByte: bv8)
    ensures With(Wide(high, low), frameByte) == Wide(high, Into(frameByte, low))
  {
  }

  lemma TopIsFirst(high: bv8, low: bv8)
    ensures Top(Wide(high, low)) <==> high & 0x80 != 0
  {
  }

  lemma PlainShift(t: bv8, sum1: bv8)
    requires sum1 & 0x80 == 0
    ensures Register(Turn(t, sum1)) == Shifted(Wide(sum1, t), false)
  {
  }

  lemma MaskedShift(t: bv8, sum1: bv8)
    requires sum1 & 0x80 != 0
    ensures Register(Turn(t, sum1)) == Shifted(Wide(sum1, t), true)
  {
  }

  // ---------------------------------------------------------------- initial values

  function Sum(frame: seq<bv8>): Checksum {
    if frame == [] then Checksum(0, 0) else TwoWayStep(frame[|frame| - 1], Sum(frame[..|frame| - 1]))
  }

  /** The first eight bytes of the frame, filled up with 0x55, and the checksum. */
  function Head(frame: seq<bv8>): (head: seq<bv8>)
    ensures |head| == 10
  {
    seq(8, i requires 0 <= i < 8 => if i < |frame| then frame[i] else 0x55) + [Sum(frame).sum1, Sum(frame).sum2]
  }

  /** The head and six more bytes. */
  function Value(frame: seq<bv8>, tail: seq<bv8>): (iv: Block)
    requires |tail| == 6
  {
    Head(frame) + tail
  }

  function SequenceTail(sequence: seq<bv8>): (tail: seq<bv8>)
    requires |sequence| == 2
    ensures |tail| == 6
  {
    sequence + [0x55, 0x55, 0x55, 0x55]
  }

  method FillHead(frameData: seq<bv8>, initialValue: array<bv8>, frameLength: nat)
    requires frameLength <= |frameData| && initialValue.Length == 16
    modifies initialValue
    ensures initialValue[..10] == Head(frameData[..frameLength])
  {
    initialValue[8] := 0;
    initialValue[9] := 0;
    var i := 0;
    while i < frameLength
      invariant i <= frameLength
      invariant Checksum(initialValue[8], initialValue[9]) == Sum(frameData[..i])
      invariant forall k :: 0 <= k < 8 && k < i ==> initialValue[k] == frameData[k]
    {
      var checksum := TwoWayStep(frameData[i], Checksum(initialValue[8], initialValue[9]));
      assert frameData[..i + 1][..i] == frameData[..i];
      initialValue[8] := checksum.sum1;
      initialValue[9] := checksum.sum2;
      if i < 8 {
        initialValue[i] := frameData[i];
      }
      i := i + 1;
    }
    if i < 8 {
      for j := i to 8
        invariant Checksum(initialValue[8], initialValue[9]) == Sum(frameData[..i])
        invariant forall k :: 0 <= k < i ==> initialValue[k] == frameData[k]
        invariant forall k :: i <= k < j ==> initialValue[k] == 0x55
      {
        initialValue[j] := 0x55;
      }
    }
  }

  /** constructInitialValue of crypto2Wutils.h; the sequence number it is handed is not used. */
  method TwoWayInitialValue(frameData: seq<bv8>, initialValue: array<bv8>, frameLength: nat, challenge: seq<bv8>)
    requires frameLength <= |frameData| && |challenge| >= 6 && initialValue.Length == 16
    modifies initialValue
    ensures initialValue[..] == Value(frameData[..frameLength], challenge[..6])
  {
    hide Head;
    FillHead(frameData, initialValue, frameLength);
    ghost var head := initialValue[..10];
    for k := 10 to 16
      invariant initialValue[..10] == head
      invariant forall m :: 10 <= m < k ==> initialValue[m] == challenge[m - 10]
    {
      initialValue[k] := challenge[k - 10];
    }
    assert initialValue[10..] == challenge[..6];
    assert initialValue[..] == initialValue[..10] + initialValue[10..];
  }

  method OneWayHead(frameData: seq<bv8>) returns (iv: seq<bv8>)
    ensures |iv| == 16 && iv[..10] == Head(frameData)
  {
    iv := seq(16, _ => 0);
    var i := 0;
    while i < |frameData|
      invariant i <= |frameData| && |iv| == 16
      invariant Checksum(iv[8], iv[9]) == Sum(frameData[..i])
      invariant forall k :: 0 <= k < 8 && k < i ==> iv[k] == frameData[k]
    {
      var checksum := OneWayStep(frameData[i], Checksum(iv[8], iv[9]));
      StepsAgree(frameData[i], Checksum(iv[8], iv[9]));
      assert frameData[..i + 1][..i] == frameData[..i];
      iv := iv[8 := checksum.sum1][9 := checksum.sum2];
      if i < 8 {
        iv := iv[i := frameData[i]];
      }
      i := i + 1;
    }
    if i < 8 {
      for j := i to 8
        invariant |iv| == 16 && Checksum(iv[8], iv[9]) == Sum(frameData[..i])
        invariant forall k :: 0 <= k < i ==> iv[k] == frameData[k]
        invariant forall k :: i <= k < j ==> iv[k] == 0x55
      {
        iv := iv[j := 0x55];
      }
    }
    assert frameData[..|frameData|] == frameData;
  }

  /** constructInitialValue of iohcCryptoHelpers.cpp, with its two modes; without either it returns
      an empty vector. */
  method OneWayInitialValue(frameData: seq<bv8>, challenge: Option<seq<bv8>>, sequence: Option<seq<bv8>>)
    returns (iv: seq<bv8>)
    requires challenge.Some? ==> |challenge.value| >= 6
    requires sequence.Some? ==> |sequence.value| == 2
    ensures challenge.None? && sequence.None? ==> iv == []
    ensures challenge.Some? ==> iv == Value(frameData, challenge.value[..6])
    ensures challenge.None? && sequence.Some? ==> iv == Value(frameData, SequenceTail(sequence.value))
  {
    hide Head;
    if challenge.None? && sequence.None? {
      return [];
    }
    iv := OneWayHead(frameData);
    if challenge.None? {
      for k := 12 to 16
        invariant |iv| == 16 && iv[..10] == Head(frameData) && forall m :: 12 <= m < k ==> iv[m] == 0x55
      {
        iv := iv[k := 0x55];
      }
      iv := iv[10 := sequence.value[0]][11 := sequence.value[1]];
      assert iv[10..] == SequenceTail(sequence.value);
    } else {
      for k := 10 to 16
        invariant |iv| == 16 && iv[..10] == Head(frameData)
        invariant forall m :: 10 <= m < k ==> iv[m] == challenge.value[m - 10]
      {
        iv := iv[k := challenge.value[k - 10]];
      }
      assert iv[10..] == challenge.value[..6];
    }
    assert iv == iv[..10] + iv[10..];
  }

  lemma HeadBytes(frame: seq<bv8>)
    ensures forall i :: 0 <= i < 8 ==> Head(frame)[i] == if i < |frame| then frame[i] else 0x55
    ensures Head(frame)[8] == Sum(frame).sum1 && Head(frame)[9] == Sum(frame).sum2
  {
    hide Sum;
    var padded := seq(8, i requires 0 <= i < 8 => if i < |frame| then frame[i] else 0x55);
    assert Head(frame) == padded + [Sum(frame).sum1, Sum(frame).sum2];
  }

  /** An initial value byte by byte: the first eight bytes of the frame, 0x55 where it has none, the
      checksum, and six bytes of challenge, or the sequence number and 0x55 four times. */
  lemma ValueBytes(frame: seq<bv8>, tail: seq<bv8>, sequence: seq<bv8>)
    requires |tail| == 6 && |sequence| == 2
    ensures var iv := Value(frame, tail);
      && (forall i :: 0 <= i < 8 ==> iv[i] == if i < |frame| then frame[i] else 0x55)
      && iv[8] == Sum(frame).sum1 && iv[9] == Sum(frame).sum2 && iv[10..] == tail
    ensures SequenceTail(sequence) == sequence + [0x55, 0x55, 0x55, 0x55]
  {
    hide Sum, Head;
    HeadBytes(frame);
    assert Value(frame, tail) == Head(frame) + tail;
  }

  // ---------------------------------------------------------------- different frames

  /** From different states, the same bytes lead to different sums. */
  lemma {:induction false} SumsStayApart(x: seq<bv8>, y: seq<bv8>, k: nat)
    requires k < |x| == |y| && x[k] != y[k]
    requires forall i :: 0 <= i < |x| && i != k ==> x[i] == y[i]
    ensures Sum(x) != Sum(y)
  {
    var n := |x| - 1;
    if k == n {
      assert x[..n] == y[..n];
      if Sum(x) == Sum(y) {
        StepInjective(x[n], Sum(x[..n]), y[n], Sum(y[..n]));
      }
    } else {
      SumsStayApart(x[..n], y[..n], k);
      if Sum(x) == Sum(y) {
        StepInjective(x[n], Sum(x[..n]), y[n], Sum(y[..n]));
      }
    }
  }

  /** Frames of one length, however long, that differ in exactly one byte have different initial
      values, whatever challenges or sequence numbers they are used with; and so different images
      under AES with any one key. */
  lemma OneByteChangesTheImage(x: seq<bv8>, y: seq<bv8>, k: nat, s: seq<bv8>, t: seq<bv8>, key: Block)
    requires k < |x| == |y| && x[k] != y[k] && |s| == |t| == 6
    requires forall i :: 0 <= i < |x| && i != k ==> x[i] == y[i]
    ensures Value(x, s) != Value(y, t)
    ensures Cipher(key, Value(x, s)) != Cipher(key, Value(y, t))
  {
    SumsStayApart(x, y, k);
    assert Value(x, s)[8] == Sum(x).sum1 && Value(x, s)[9] == Sum(x).sum2;
    assert Value(y, t)[8] == Sum(y).sum1 && Value(y, t)[9] == Sum(y).sum2;
    CipherInjective(key, Value(x, s), Value(y, t));
  }
}
