/** The frame check sequence: the reflected CRC-16 with polynomial 0x8408, initial value 0 and no
    final complement. */
module Crc {

  const POLYNOMIAL: bv16 := 0x8408

  function Bit(b: bool): bv16 {
    if b then 1 else 0
  }

  function Plus(a: bv16, b: bv16): bv16 {
    a ^ b
  }

  function Half(crc: bv16): bv16 {
    crc >> 1
  }

  predicate Odd(crc: bv16) {
    crc & 1 == 1
  }

  function Feedback(crc: bv16): bv16 {
    if Odd(crc) then POLYNOMIAL else 0
  }

  /** One turn of the shift register. */
  function Shift(crc: bv16): bv16 {
    Plus(Half(crc), Feedback(crc))
  }

  function Shifts(crc: bv16, n: nat): bv16
    decreases n
  {
    if n == 0 then crc else Shifts(Shift(crc), n - 1)
  }

  // ---------------------------------------------------------------- bit by bit

  /** The register fed one message bit at a time. */
  function Fed(crc: bv16, bits: seq<bool>): bv16
    decreases bits
  {
    if bits == [] then crc else Fed(Shift(Plus(crc, Bit(bits[0]))), bits[1..])
  }

  /** The bits of a word, least significant first. */
  function BitsOf(w: bv16, n: nat): (bits: seq<bool>)
    ensures |bits| == n
    decreases n
  {
    if n == 0 then [] else [Odd(w)] + BitsOf(Half(w), n - 1)
  }

  function Bits(buffer: seq<bv8>): (bits: seq<bool>)
    ensures |bits| == 8 * |buffer|
  {
    if buffer == [] then [] else BitsOf(buffer[0] as bv16, 8) + Bits(buffer[1..])
  }

  // ---------------------------------------------------------------- byte by byte

  /** What computeCrc returns: the whole byte goes in first, then eight turns. */
  function Byte(data: bv8, crc: bv16): bv16 {
    Shifts(Plus(crc, data as bv16), 8)
  }

  function Frame(buffer: seq<bv8>, crc: bv16): bv16
    decreases buffer
  {
    if buffer == [] then crc else Frame(buffer[1..], Byte(buffer[0], crc))
  }

  method ComputeCrc(data: bv8, crc: bv16) returns (r: bv16)
    ensures r == Byte(data, crc)
  {
    r := Plus(crc, data as bv16);
    for i := 0 to 8
      invariant Shifts(r, 8 - i) == Byte(data, crc)
    {
      var remainder := if Odd(r) then POLYNOMIAL else 0;
      r := Plus(Half(r), remainder);
    }
  }

  method RadioPacketComputeCrc(buffer: seq<bv8>) returns (crc: bv16)
    ensures crc == Frame(buffer, 0)
  {
    crc := 0;
    for i := 0 to |buffer|
      invariant Frame(buffer[i..], crc) == Frame(buffer, 0)
    {
      assert buffer[i..][1..] == buffer[i + 1..];
      crc := ComputeCrc(buffer[i], crc);
    }
  }

  // ---------------------------------------------------------------- bytes are eight bits each

  /** No bit of `w` lies at position `n` or above. */
  predicate Fits(w: bv16, n: nat)
    decreases n
  {
    if n == 0 then w == 0 else Fits(Half(w), n - 1)
  }

  lemma Associative(a: bv16, b: bv16, c: bv16)
    ensures Plus(Plus(a, b), c) == Plus(a, Plus(b, c))
  {
  }

  lemma Commutative(a: bv16, b: bv16)
    ensures Plus(a, b) == Plus(b, a)
  {
  }

  lemma Swap(a: bv16, b: bv16, c: bv16, d: bv16)
    ensures Plus(Plus(a, b), Plus(c, d)) == Plus(Plus(a, c), Plus(b, d))
  {
    Associative(a, b, Plus(c, d));
    Associative(b, c, d);
    Commutative(b, c);
    Associative(c, b, d);
    Associative(a, c, Plus(b, d));
  }

  lemma HalfPlus(a: bv16, b: bv16)
    ensures Half(Plus(a, b)) == Plus(Half(a), Half(b))
  {
  }

  lemma FeedbackPlus(a: bv16, b: bv16)
    ensures Feedback(Plus(a, b)) == Plus(Feedback(a), Feedback(b))
  {
  }

  lemma ShiftPlus(a: bv16, b: bv16)
    ensures Shift(Plus(a, b)) == Plus(Shift(a), Shift(b))
  {
    HalfPlus(a, b);
    FeedbackPlus(a, b);
    Swap(Half(a), Half(b), Feedback(a), Feedback(b));
  }

  lemma ShiftOfBit(w: bv16)
    ensures Shift(Bit(Odd(w))) == Feedback(w)
  {
  }

  /** Only the lowest bit of what is fed in can turn the feedback on. */
  lemma ShiftEarly(c: bv16, w: bv16)
    ensures Shift(Plus(c, w)) == Plus(Shift(Plus(c, Bit(Odd(w)))), Half(w))
  {
    ShiftPlus(c, w);
    ShiftPlus(c, Bit(Odd(w)));
    ShiftOfBit(w);
    Associative(Shift(c), Feedback(w), Half(w));
    Commutative(Feedback(w), Half(w));
  }

  lemma Zero(a: bv16)
    ensures Plus(a, 0) == a && Plus(a, a) == 0
  {
  }

  /** Feeding bits one by one, or all of them at once before the turns, is the same. */
  lemma {:induction false} FedIsShifts(c: bv16, w: bv16, n: nat)
    requires Fits(w, n)
    ensures Fed(c, BitsOf(w, n)) == Shifts(Plus(c, w), n)
    decreases n
  {
    if n == 0 {
      Zero(c);
    } else {
      FedIsShifts(Shift(Plus(c, Bit(Odd(w)))), Half(w), n - 1);
      ShiftEarly(c, w);
      assert BitsOf(w, n)[1..] == BitsOf(Half(w), n - 1);
    }
  }

  lemma {:induction false} FedConcat(c: bv16, x: seq<bool>, y: seq<bool>)
    ensures Fed(c, x + y) == Fed(Fed(c, x), y)
    decreases x
  {
    if x == [] {
      assert x + y == y;
    } else {
      assert (x + y)[1..] == x[1..] + y;
      FedConcat(Shift(c ^ Bit(x[0])), x[1..], y);
    }
  }

  lemma ByteFits(b: bv8)
    ensures Fits(b as bv16, 8)
  {
  }

  /** The byte-wise code computes the bit-serial register. */
  lemma {:induction false} FrameIsFed(buffer: seq<bv8>, crc: bv16)
    ensures Frame(buffer, crc) == Fed(crc, Bits(buffer))
    decreases buffer
  {
    if buffer == [] {
    } else {
      var b := buffer[0] as bv16;
      ByteFits(buffer[0]);
      FedIsShifts(crc, b, 8);
      FedConcat(crc, BitsOf(b, 8), Bits(buffer[1..]));
      FrameIsFed(buffer[1..], Byte(buffer[0], crc));
    }
  }

  // ---------------------------------------------------------------- linear

  function Differences(x: seq<bool>, y: seq<bool>): (d: seq<bool>)
    requires |x| == |y|
    ensures |d| == |x|
  {
    seq(|x|, i requires 0 <= i < |x| => x[i] != y[i])
  }

  lemma BitPlus(a: bool, b: bool)
    ensures Bit(a != b) == Plus(Bit(a), Bit(b))
  {
  }

  /** The register of a difference is the difference of the registers. */
  lemma {:induction false} FedLinear(a: bv16, b: bv16, x: seq<bool>, y: seq<bool>)
    requires |x| == |y|
    ensures Fed(Plus(a, b), Differences(x, y)) == Plus(Fed(a, x), Fed(b, y))
    decreases x
  {
    if x == [] {
    } else {
      Swap(a, b, Bit(x[0]), Bit(y[0]));
      BitPlus(x[0], y[0]);
      ShiftPlus(Plus(a, Bit(x[0])), Plus(b, Bit(y[0])));
      FedLinear(Shift(Plus(a, Bit(x[0]))), Shift(Plus(b, Bit(y[0]))), x[1..], y[1..]);
      assert Differences(x, y)[1..] == Differences(x[1..], y[1..]);
    }
  }

  // ---------------------------------------------------------------- the frame check

  lemma ShiftOfNonZero(a: bv16)
    requires a != 0
    ensures Shift(a) != 0
  {
  }

  lemma {:induction false} ShiftsZeroOnlyOfZero(a: bv16, n: nat)
    ensures Shifts(a, n) == 0 <==> a == 0
    decreases n
  {
    if n == 0 {
    } else {
      if a != 0 {
        ShiftOfNonZero(a);
      }
      ShiftsZeroOnlyOfZero(Shift(a), n - 1);
    }
  }

  lemma {:induction false} FitsMore(w: bv16, n: nat, m: nat)
    requires Fits(w, n) && n <= m
    ensures Fits(w, m)
    decreases m
  {
    if n == 0 {
      ZeroFits(m);
    } else {
      FitsMore(Half(w), n - 1, m - 1);
    }
  }

  lemma {:induction false} ZeroFits(m: nat)
    ensures Fits(0, m)
  {
    if m > 0 {
      ZeroFits(m - 1);
    }
  }

  lemma FifteenBits(w: bv16)
    requires Fits(w, 15)
    ensures w & 0x8000 == 0
  {
  }

  function Pushed(b: bool, w: bv16): bv16 {
    Bit(b) | (w << 1)
  }

  lemma HalfOfDoubled(x: bv16, w: bv16)
    requires w & 0x8000 == 0
    ensures ((x & 1) | (w << 1)) >> 1 == w
  {
  }

  lemma OddPushed(b: bool, w: bv16)
    ensures Odd(Pushed(b, w)) == b
  {
  }

  lemma HalfOfPushed(b: bool, w: bv16)
    requires w & 0x8000 == 0
    ensures Half(Pushed(b, w)) == w
  {
    if b {
      HalfOfDoubled(1, w);
    } else {
      HalfOfDoubled(0, w);
    }
  }

  lemma {:induction false} WordFor(bits: seq<bool>) returns (w: bv16)
    requires |bits| <= 16
    ensures Fits(w, |bits|) && BitsOf(w, |bits|) == bits
    decreases bits
  {
    if bits == [] {
      w := 0;
    } else {
      var rest := WordFor(bits[1..]);
      FitsMore(rest, |bits| - 1, 15);
      FifteenBits(rest);
      HalfOfPushed(bits[0], rest);
      OddPushed(bits[0], rest);
      w := Pushed(bits[0], rest);
      assert bits == [bits[0]] + bits[1..];
    }
  }

  lemma {:induction false} FedZeros(c: bv16, bits: seq<bool>)
    requires true !in bits
    ensures Fed(c, bits) == Shifts(c, |bits|)
    decreases bits
  {
    if bits == [] {
    } else {
      assert bits[0] in bits;
      Zero(c);
      FedZeros(Shift(c), bits[1..]);
    }
  }

  /** Some bit is set, and all set bits lie in sixteen consecutive positions. */
  ghost predicate Burst(bits: seq<bool>, p: nat) {
    true in bits && forall i :: 0 <= i < |bits| && bits[i] ==> p <= i < p + 16
  }

  lemma BurstLeavesRegister(bits: seq<bool>, p: nat)
    requires Burst(bits, p)
    ensures Fed(0, bits) != 0
  {
    var to := if p + 16 <= |bits| then p + 16 else |bits|;
    var before, window, after := bits[..p], bits[p..to], bits[to..];
    assert bits == before + window + after;
    FedConcat(0, before + window, after);
    FedConcat(0, before, window);
    FedZeros(0, before);
    ShiftsZeroOnlyOfZero(0, |before|);
    var w := WordFor(window);
    FedIsShifts(0, w, |window|);
    Zero(w);
    Commutative(0, w);
    assert w != 0 by {
      if w == 0 {
        ZeroBits(|window|);
      }
    }
    ShiftsZeroOnlyOfZero(w, |window|);
    FedZeros(Shifts(w, |window|), after);
    ShiftsZeroOnlyOfZero(Shifts(w, |window|), |after|);
  }

  lemma {:induction false} ZeroBits(n: nat)
    ensures true !in BitsOf(0, n)
  {
    if n > 0 {
      ZeroBits(n - 1);
    }
  }

  lemma DifferOnlyIfEqual(a: bv16, b: bv16)
    ensures Plus(a, b) == 0 <==> a == b
  {
  }

  /** An error confined to sixteen consecutive bits changes the check of a message of any length. */
  lemma BurstDetected(sent: seq<bv8>, received: seq<bv8>, p: nat, crc: bv16)
    requires |sent| == |received| && Burst(Differences(Bits(sent), Bits(received)), p)
    ensures Frame(sent, crc) != Frame(received, crc)
  {
    FrameIsFed(sent, crc);
    FrameIsFed(received, crc);
    Zero(crc);
    FedLinear(crc, crc, Bits(sent), Bits(received));
    BurstLeavesRegister(Differences(Bits(sent), Bits(received)), p);
    DifferOnlyIfEqual(Fed(crc, Bits(sent)), Fed(crc, Bits(received)));
  }

  // ---------------------------------------------------------------- the check appended

  lemma {:induction false} FrameConcat(x: seq<bv8>, y: seq<bv8>, crc: bv16)
    ensures Frame(x + y, crc) == Frame(y, Frame(x, crc))
    decreases x
  {
    if x == [] {
      assert x + y == y;
    } else {
      assert (x + y)[1..] == x[1..] + y;
      FrameConcat(x[1..], y, Byte(x[0], crc));
    }
  }

  function LowByte(w: bv16): bv8 {
    (w & 0xff) as bv8
  }

  function HighByte(w: bv16): bv8 {
    (w >> 8) as bv8
  }

  /** With an empty low byte nothing is fed back for eight turns. */
  lemma NoFeedback(high: bv16)
    requires high & 0xff00 == 0
    ensures Shifts(high << 8, 8) == high
  {
    var w := high << 8;
    assert Shift(w) == high << 7;
    assert Shift(high << 7) == high << 6;
    assert Shift(high << 6) == high << 5;
    assert Shift(high << 5) == high << 4;
    assert Shift(high << 4) == high << 3;
    assert Shift(high << 3) == high << 2;
    assert Shift(high << 2) == high << 1;
    assert Shift(high << 1) == high;
  }

  lemma LowByteCancels(crc: bv16)
    ensures crc ^ (crc & 0xff) == (crc >> 8) << 8
  {
  }

  lemma BytesOfWord(crc: bv16)
    ensures LowByte(crc) as bv16 == crc & 0xff && HighByte(crc) as bv16 == crc >> 8
  {
  }

  lemma OwnCheckIsZero(crc: bv16)
    ensures Frame([LowByte(crc), HighByte(crc)], crc) == 0
  {
    var high := crc >> 8;
    BytesOfWord(crc);
    LowByteCancels(crc);
    NoFeedback(high);
    Zero(high);
    ShiftsZeroOnlyOfZero(0, 8);
    assert Byte(LowByte(crc), crc) == high && Byte(HighByte(crc), high) == 0;
    TwoBytes(LowByte(crc), HighByte(crc), crc);
  }

  lemma TwoBytes(low: bv8, high: bv8, crc: bv16)
    ensures Frame([low, high], crc) == Byte(high, Byte(low, crc))
  {
    assert [low, high][1..] == [high] && [high][1..] == [];
    assert Frame([high], Byte(low, crc)) == Frame([], Byte(high, Byte(low, crc)));
  }

  lemma HalfAndParity(a: bv16, b: bv16)
    requires Half(a) == Half(b) && Odd(a) == Odd(b)
    ensures a == b
  {
  }

  lemma {:induction false} BitsOfInjective(a: bv16, b: bv16, n: nat)
    requires Fits(a, n) && Fits(b, n) && BitsOf(a, n) == BitsOf(b, n)
    ensures a == b
    decreases n
  {
    if n == 0 {
    } else {
      assert BitsOf(a, n)[0] == BitsOf(b, n)[0] && BitsOf(a, n)[1..] == BitsOf(b, n)[1..];
      BitsOfInjective(Half(a), Half(b), n - 1);
      HalfAndParity(a, b);
    }
  }

  lemma BitsSplit(x: seq<bv8>)
    requires x != []
    ensures Bits(x)[..8] == BitsOf(x[0] as bv16, 8) && Bits(x)[8..] == Bits(x[1..])
  {
  }

  lemma {:induction false} BitsInjective(x: seq<bv8>, y: seq<bv8>)
    requires |x| == |y| && Bits(x) == Bits(y)
    ensures x == y
  {
    hide *;
    if x == [] {
    } else {
      BitsSplit(x);
      BitsSplit(y);
      ByteFits(x[0]);
      ByteFits(y[0]);
      BitsOfInjective(x[0] as bv16, y[0] as bv16, 8);
      BitsInjective(x[1..], y[1..]);
    }
  }

  lemma DifferingBytes(x: seq<bv8>, y: seq<bv8>)
    requires |x| == |y| && x != y
    ensures true in Differences(Bits(x), Bits(y))
  {
    if Bits(x) == Bits(y) {
      BitsInjective(x, y);
    }
    var i :| 0 <= i < |Bits(x)| && Bits(x)[i] != Bits(y)[i];
    assert Differences(Bits(x), Bits(y))[i];
  }

  /** A message followed by two bytes has check 0 exactly when they are its own check, low byte first. */
  lemma AppendedCheckIsZero(message: seq<bv8>, low: bv8, high: bv8)
    ensures Frame(message + [low, high], 0) == 0 <==>
      low == LowByte(Frame(message, 0)) && high == HighByte(Frame(message, 0))
  {
    var crc := Frame(message, 0);
    var own := [LowByte(crc), HighByte(crc)];
    FrameConcat(message, [low, high], 0);
    OwnCheckIsZero(crc);
    if [low, high] != own {
      DifferingBytes([low, high], own);
      BurstDetected([low, high], own, 0, crc);
    }
    assert [low, high][0] == low && [low, high][1] == high;
  }

  // ---------------------------------------------------------------- known values

  lemma EightTurns(crc: bv16)
    ensures Shifts(crc, 8) == Shift(Shift(Shift(Shift(Shift(Shift(Shift(Shift(crc))))))))
  {
  }

  lemma ByteIs(data: bv8, crc: bv16, r: bv16)
    requires r == Shift(Shift(Shift(Shift(Shift(Shift(Shift(Shift(Plus(crc, data as bv16)))))))))
    ensures Byte(data, crc) == r
  {
    EightTurns(Plus(crc, data as bv16));
  }

  /** The check of the one byte 0x01. */
  lemma CheckOfOne()
    ensures Frame([0x01], 0) == 0x1189
  {
    ByteIs(0x01, 0, 0x1189);
    assert [0x01 as bv8][1..] == [];
  }

  /** The published check value of this CRC: that of the nine digits 1 to 9 in ASCII. */
  lemma CheckOfDigits()
    ensures Frame([0x31, 0x32, 0x33, 0x34, 0x35, 0x36, 0x37, 0x38, 0x39], 0) == 0x2189
  {
    ByteIs(0x31, 0, 0x200a);
    ByteIs(0x32, 0x200a, 0xbdeb);
    ByteIs(0x33, 0xbdeb, 0x5a78);
    ByteIs(0x34, 0x5a78, 0x8832);
    ByteIs(0x35, 0x8832, 0x7437);
    ByteIs(0x36, 0x7437, 0x11fd);
    ByteIs(0x37, 0x11fd, 0x6947);
    ByteIs(0x38, 0x6947, 0x8b19);
    ByteIs(0x39, 0x8b19, 0x2189);
    hide Byte, Shifts, Shift, Plus;
    FrameCons(0x39, [], 0x8b19);
    FrameCons(0x38, [0x39], 0x6947);
    FrameCons(0x37, [0x38, 0x39], 0x11fd);
    FrameCons(0x36, [0x37, 0x38, 0x39], 0x7437);
    FrameCons(0x35, [0x36, 0x37, 0x38, 0x39], 0x8832);
    FrameCons(0x34, [0x35, 0x36, 0x37, 0x38, 0x39], 0x5a78);
    FrameCons(0x33, [0x34, 0x35, 0x36, 0x37, 0x38, 0x39], 0xbdeb);
    FrameCons(0x32, [0x33, 0x34, 0x35, 0x36, 0x37, 0x38, 0x39], 0x200a);
    FrameCons(0x31, [0x32, 0x33, 0x34, 0x35, 0x36, 0x37, 0x38, 0x39], 0);
    assert [0x31] + [0x32, 0x33, 0x34, 0x35, 0x36, 0x37, 0x38, 0x39]
        == [0x31 as bv8, 0x32, 0x33, 0x34, 0x35, 0x36, 0x37, 0x38, 0x39];
  }

  lemma FrameCons(first: bv8, rest: seq<bv8>, crc: bv16)
    ensures Frame([first] + rest, crc) == Frame(rest, Byte(first, crc))
  {
    assert ([first] + rest)[1..] == rest;
  }
}
