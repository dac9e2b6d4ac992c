/** The frames the gateway sends are frames its receiver accepts. */
module FrameTheorems {
  import opened RadioTypes
  import opened OneWay
  import opened RadioFrame

  /** The flag bits of a first byte, from bit 5 up: one-way, start, end. */
  predicate OneWayFlags(first: bv8) {
    first & 0x20 != 0 && first & 0x40 != 0 && first & 0x80 != 0
  }

  predicate TwoWayFlags(first: bv8) {
    first & 0x20 == 0 && first & 0x40 != 0 && first & 0x80 == 0
  }

  /** Every one-way command adds the size of its data, at most 23 bytes, within the length bits. */
  lemma OneWayControl(size: bv8)
    requires size <= 23
    ensures OneWayFlags(0xe0 | (8 + size)) && Length(0xe0 | (8 + size)) == 8 + size as nat
  {
    FlagsAside(size);
    SmallSum(size);
  }

  lemma FlagsAside(size: bv8)
    requires size <= 23
    ensures (0xe0 | (8 + size)) & 0x1f == 8 + size
    ensures OneWayFlags(0xe0 | (8 + size))
  {
  }

  lemma SmallSum(size: bv8)
    requires size <= 23
    ensures (8 + size) as nat == 8 + size as nat
  {
  }

  /** The frame of any one-way command: its header, and its data behind it. */
  predicate OneWayFrame(f: seq<bv8>, r: Remote, command: bv8, data: seq<bv8>) {
    |data| <= 23 && f == Header(r, 8 + |data| as bv8, command) + data
  }

  lemma SizeOf(n: nat)
    requires n <= 23
    ensures n as bv8 <= 23 && (n as bv8) as nat == n
  {
  }

  lemma OneWayFramed(f: seq<bv8>, r: Remote, command: bv8, data: seq<bv8>)
    requires OneWayFrame(f, r, command, data)
    ensures Framed(f) && OneWayFlags(f[0])
  {
    var size := |data| as bv8;
    SizeOf(|data|);
    OneWayControl(size);
    assert f[0] == Header(r, 8 + size, command)[0];
  }

  /** The frames of cmd(Pair), cmd(Remove) and cmd(Add) are such frames. */
  lemma LearnFramesAreOneWay(aes: Encryption, r: Remote, command: bv8)
    ensures var f := SignedFrame(aes, r, command); OneWayFrame(f, r, command, f[9..])
    ensures var f := KeyFrame(aes, r); OneWayFrame(f, r, 0x30, f[9..])
  {
    var f, g := SignedFrame(aes, r, command), KeyFrame(aes, r);
    assert f[..9] == Header(r, 17, command) && g[..9] == Header(r, 28, 0x30);
    assert f == f[..9] + f[9..] && g == g[..9] + g[9..];
    assert 8 + (9 as bv8) == 17 && 8 + (20 as bv8) == 28;
  }

  /** The frame of every one-way command comes out of the receiver byte for byte when it arrives in
      time, whatever trails behind it. */
  lemma OneWayComesOut(f: seq<bv8>, r: Remote, command: bv8, data: seq<bv8>,
                       ticks: seq<Tick>, startedUs: nat, scanning: bool)
    requires OneWayFrame(f, r, command, data)
    requires f <= Delivered(ticks) && Timely(ticks, |f|, startedUs, LimitsFor(scanning), 0)
    ensures RadioFrame.Receive(ticks, startedUs, scanning) == Some(f)
  {
    OneWayFramed(f, r, command, data);
    FrameComesOut(ticks, startedUs, scanning, f);
  }

  // ---------------------------------------------------------------- forgePacket of main.cpp

  lemma TwoWayControl(size: bv8)
    requires size <= 23
    ensures TwoWayFlags(0x48 + size) && Length(0x48 + size) == 8 + size as nat
  {
    SumAside(size);
    SmallSum(size);
  }

  lemma SumAside(size: bv8)
    requires size <= 23
    ensures (0x48 + size) & 0x1f == 8 + size && TwoWayFlags(0x48 + size)
  {
  }

  /** The length bits, the three flags, and the addition to the whole byte. */
  method SetControl(packet: array<bv8>, size: bv8)
    requires packet.Length == OneWay.MAX_FRAME_LEN && size <= 23
    modifies packet
    ensures packet[0] == 0x48 + size && TwoWayFlags(packet[0]) && Length(packet[0]) == 8 + size as nat
  {
    packet[0] := SetLength(packet[0], 8);
    packet[0] := packet[0] & !0x20;
    packet[0] := packet[0] | 0x40;
    packet[0] := packet[0] & !0x80;
    packet[0] := packet[0] + size;
    TwoWayControl(size);
  }

  /** The start flag and the length, side by side. */
  lemma ForgedByte(n: nat)
    requires n <= 23
    ensures 0x48 + n as bv8 == (0x40 & 0xe0) | (n + 8) as bv8
  {
    SizeOf(n);
    assert (n + 8) as bv8 == n as bv8 + 8;
    SideBySide(n as bv8);
  }

  lemma SideBySide(size: bv8)
    requires size <= 23
    ensures 0x48 + size == (0x40 & 0xe0) | (size + 8)
  {
  }

  /** For at most 23 bytes of data the forged frame keeps its flags, carries the data, and is a frame
      the receiver accepts. */
  method ForgePacket(packet: array<bv8>, toSend: seq<bv8>) returns (length: nat)
    requires packet.Length == OneWay.MAX_FRAME_LEN && |toSend| <= 23
    modifies packet
    ensures length == |toSend| + 9 && TwoWayFlags(packet[0]) && packet[1] == 0
    ensures packet[9..length] == toSend && Framed(packet[..length])
    ensures packet[0] == (0x40 & 0xe0) | (length - 1) as bv8
  {
    hide TwoWayFlags, Length;
    SizeOf(|toSend|);
    ForgedByte(|toSend|);
    SetControl(packet, |toSend| as bv8);
    packet[1] := 0;
    ghost var head := packet[..9];
    Copy(packet, 9, toSend);
    length := |toSend| + 9;
    assert packet[0] == packet[..9][0] == head[0] && packet[1] == packet[..9][1] == head[1];
  }

  /** A frame forged with any data of at most 23 bytes, with any source, target, command, second byte
      and flags set afterwards, comes out of the receiver byte for byte when it arrives in time. */
  lemma ForgedComesOut(f: seq<bv8>, flags: bv8, rest: seq<bv8>, ticks: seq<Tick>, startedUs: nat, scanning: bool)
    requires 8 <= |rest| <= 31 && f == [(flags & 0xe0) | |rest| as bv8] + rest
    requires f <= Delivered(ticks) && Timely(ticks, |f|, startedUs, LimitsFor(scanning), 0)
    ensures RadioFrame.Receive(ticks, startedUs, scanning) == Some(f)
  {
    LengthBits(flags, |rest|);
    FrameComesOut(ticks, startedUs, scanning, f);
  }

  lemma LengthBits(flags: bv8, n: nat)
    requires n <= 31
    ensures Length((flags & 0xe0) | n as bv8) == n
  {
    assert n as bv8 <= 31 && (n as bv8) as nat == n;
    OnlyLengthBits(flags, n as bv8);
  }

  lemma OnlyLengthBits(flags: bv8, n: bv8)
    requires n <= 31
    ensures ((flags & 0xe0) | n) & 0x1f == n
  {
  }

  // ---------------------------------------------------------------- which frames ask to listen

  /** No one-way command frame asks for listening after it, and a forged two-way frame does exactly if
      its command is 0x32. */
  lemma OnlyTwoWay32Listens(p: Packet, r: Remote, command: bv8, data: seq<bv8>, size: bv8)
    requires |p.frame| >= 9
    ensures OneWayFrame(p.frame, r, command, data) ==> !IsKeyTransfer(p)
    ensures size <= 23 && p.frame[0] == 0x48 + size ==> (IsKeyTransfer(p) <==> p.frame[8] == 0x32)
  {
    if OneWayFrame(p.frame, r, command, data) {
      OneWayFramed(p.frame, r, command, data);
    }
    if size <= 23 {
      TwoWayControl(size);
    }
  }
}
