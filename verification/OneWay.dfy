/** One-way frames: their layout, the key transform and the MAC they carry, and the remote that
    sends them. AES is any function from a key and a block to a block. */
module OneWay {
  import opened RadioTypes
  import opened Aes
  import opened InitialValue

  type Address = a: seq<bv8> | |a| == 3 witness [0, 0, 0]
  type Encryption = (Block, Block) -> Block

  const TRANSFER_KEY: Block :=
    [0x34, 0xc3, 0x46, 0x6e, 0xd8, 0x8f, 0x4e, 0x8e, 0x16, 0xaa, 0x47, 0x39, 0x49, 0x88, 0x43, 0x73]

  // ---------------------------------------------------------------- layout of a received frame

  const HEADER: nat := 9
  const MAX_FRAME_LEN: nat := 32

  type Frame = f: seq<bv8> | HEADER <= |f| <= MAX_FRAME_LEN witness seq(9, _ => 0)

  function Target(f: Frame): Address { f[2..5] }
  function Source(f: Frame): Address { f[5..8] }
  function Command(f: Frame): bv8 { f[8] }

  // ---------------------------------------------------------------- keys and MACs

  function Masked(a: Block, b: Block): (r: Block) {
    seq(16, i requires 0 <= i < 16 => a[i] ^ b[i])
  }

  lemma MaskedTwice(a: Block, b: Block)
    ensures Masked(Masked(a, b), b) == a
  {
    forall i | 0 <= i < 16
      ensures Masked(Masked(a, b), b)[i] == a[i]
    {
      XorTwice(a[i], b[i]);
    }
  }

  lemma XorTwice(a: bv8, b: bv8)
    ensures (a ^ b) ^ b == a
  {
  }

  /** The node address repeated over a block. */
  function NodeBlock(node: Address): (r: Block) {
    seq(16, i requires 0 <= i < 16 => node[i % 3])
  }

  lemma NodeBlockBytes(node: Address)
    ensures NodeBlock(node) == node + node + node + node + node + [node[0]]
  {
  }

  /** encrypt_1W_key: one block of CFB. */
  function TransformedKey(aes: Encryption, node: Address, key: Block): Block {
    Masked(key, aes(TRANSFER_KEY, NodeBlock(node)))
  }

  /** Encrypting a key twice gives it back, so the same routine decrypts it. */
  lemma TransformInvolution(aes: Encryption, node: Address, key: Block)
    ensures TransformedKey(aes, node, TransformedKey(aes, node, key)) == key
  {
    MaskedTwice(key, aes(TRANSFER_KEY, NodeBlock(node)));
  }

  method Encrypt1WKey(aes: Encryption, node: Address, key: array<bv8>)
    requires key.Length == 16
    modifies key
    ensures key[..] == TransformedKey(aes, node, old(key[..]))
  {
    var iv := new bv8[16](_ => 0);
    var i := 0;
    while i < 13
      invariant i % 3 == 0 && i <= 15
      invariant forall k :: 0 <= k < i ==> iv[k] == node[k % 3]
      invariant key[..] == old(key[..])
    {
      iv[i] := node[0];
      iv[i + 1] := node[1];
      iv[i + 2] := node[2];
      i := i + 3;
    }
    iv[15] := node[0];
    assert iv[..] == NodeBlock(node);
    var captured := aes(TRANSFER_KEY, iv[..]);
    for j := 0 to 16
      invariant forall k :: 0 <= k < j ==> key[k] == old(key[k]) ^ captured[k]
      invariant forall k :: j <= k < 16 ==> key[k] == old(key[k])
    {
      key[j] := key[j] ^ captured[j];
    }
  }

  /** The image a MAC is taken from; a frame carries its first six bytes. */
  function Mac(aes: Encryption, key: Block, data: seq<bv8>, sequence: seq<bv8>): (r: Block)
    requires |sequence| == 2
  {
    aes(key, Value(data, SequenceTail(sequence)))
  }

  method Create1WHmac(aes: Encryption, sequence: seq<bv8>, key: Block, frameData: seq<bv8>) returns (hmac: Block)
    requires |sequence| == 2
    ensures hmac == Mac(aes, key, frameData, sequence)
  {
    var iv := OneWayInitialValue(frameData, None, Some(sequence));
    hmac := aes(key, iv);
  }

  // ---------------------------------------------------------------- the sending remote

  function High(w: bv16): bv8 { (w >> 8) as bv8 }
  function Low(w: bv16): bv8 { (w & 0x00ff) as bv8 }
  function Big(w: bv16): (s: seq<bv8>) ensures |s| == 2 { [High(w), Low(w)] }
  function FromBig(high: bv8, low: bv8): bv16 { ((high as bv16) << 8) | (low as bv16) }

  /** The 16-bit counter wraps. */
  function Next(sequence: bv16): bv16 { sequence + 1 }

  lemma BigRoundTrip(w: bv16)
    ensures FromBig(High(w), Low(w)) == w
  {
  }

  /** The broadcast target of a device type. */
  function Broadcast(kind: bv8): bv16 {
    ((kind as bv16) << 6) + 0x3f
  }

  function BroadcastTarget(kind: bv8): Address {
    [0x00] + Big(Broadcast(kind))
  }

  /** oneWTypeFromTarget. */
  function TypeFromTarget(target: Address): bv8 {
    var broadcast := FromBig(target[1], target[2]);
    if broadcast & 0x3f == 0x3f then ((broadcast >> 6) & 0xff) as bv8 else 0
  }

  lemma TypeRoundTrip(kind: bv8)
    ensures TypeFromTarget(BroadcastTarget(kind)) == kind
  {
    BigRoundTrip(Broadcast(kind));
    TypeFromBroadcast(kind);
  }

  lemma TypeFromBroadcast(kind: bv8)
    ensures Broadcast(kind) & 0x3f == 0x3f && ((Broadcast(kind) >> 6) & 0xff) as bv8 == kind
  {
  }

  datatype Remote = Remote(node: Address, key: Block, sequence: bv16, kind: bv8, manufacturer: bv8)

  /** First byte: five bits of length, then the one-way, start and end flags. Second byte: low power. */
  function Header(r: Remote, length: bv8, command: bv8): (h: seq<bv8>)
    ensures |h| == 9
  {
    [0xe0 | length, 0x20] + BroadcastTarget(r.kind) + r.node + [command]
  }

  /** The 0x2E and 0x39 frames: a data byte, the sequence number, the MAC of command and data. */
  function SignedFrame(aes: Encryption, r: Remote, command: bv8): (f: Frame)
    ensures |f| == 18
  {
    Header(r, 17, command) + [0x00] + Big(r.sequence) + Mac(aes, r.key, [command, 0x00], Big(r.sequence))[..6]
  }

  /** The 0x30 frame: encrypted key, manufacturer, a data byte, the sequence number. */
  function KeyFrame(aes: Encryption, r: Remote): (f: Frame)
    ensures |f| == 29
  {
    Header(r, 28, 0x30) + TransformedKey(aes, r.node, r.key) + [r.manufacturer, 0x01] + Big(r.sequence)
  }

  // ---------------------------------------------------------------- the code that builds the frames

  function SetLength(control: bv8, length: bv8): bv8 {
    (control & 0xe0) | (length & 0x1f)
  }

  /** A remote entry, with the sequence number that every frame advances. */
  class OneWayRemote {
    const node: Address
    const key: Block
    const kind: bv8
    const manufacturer: bv8
    var sequence: bv16

    constructor (node: Address, key: Block, kind: bv8, manufacturer: bv8, sequence: bv16)
      ensures View() == Remote(node, key, sequence, kind, manufacturer)
    {
      this.node, this.key, this.kind, this.manufacturer, this.sequence := node, key, kind, manufacturer, sequence;
    }

    function View(): Remote
      reads this
    {
      Remote(node, key, sequence, kind, manufacturer)
    }

    /** forgePacket: length of an empty frame, flags, and the broadcast target of the type. */
    method ForgePacket(packet: array<bv8>)
      requires packet.Length == MAX_FRAME_LEN
      modifies packet
      ensures packet[0] == 0xe8 && packet[1] == 0x20 && packet[2..5] == BroadcastTarget(kind)
    {
      packet[0] := SetLength(packet[0], 8);
      packet[0] := packet[0] | 0x20;
      packet[0] := packet[0] | 0x40;
      packet[0] := packet[0] | 0x80;
      packet[1] := 0;
      packet[1] := packet[1] | 0x20;
      var bcast := ((kind as bv16) << 6) + 0x3f;
      packet[2] := 0x00;
      packet[3] := High(bcast);
      packet[4] := Low(bcast);
    }

    /** The header of a frame with `size` bytes of data. */
    method Start(packet: array<bv8>, size: bv8, command: bv8)
      requires packet.Length == MAX_FRAME_LEN && size <= 23
      modifies packet
      ensures packet[..9] == Header(View(), 8 + size, command)
    {
      ForgePacket(packet);
      packet[0] := SetLength(packet[0], (packet[0] & 0x1f) + size);
      for i := 0 to 3
        invariant packet[0] == 0xe0 | (8 + size) && packet[1] == 0x20 && packet[2..5] == BroadcastTarget(kind)
        invariant forall k :: 0 <= k < i ==> packet[5 + k] == node[k]
      {
        packet[5 + i] := node[i];
      }
      packet[8] := command;
      assert packet[5..8] == node;
      assert packet[..9] == [packet[0], packet[1]] + packet[2..5] + packet[5..8] + [packet[8]];
    }

    /** cmd(Pair) with command 0x2E, cmd(Remove) with command 0x39. */
    method Sign(aes: Encryption, command: bv8) returns (frame: Frame)
      modifies this`sequence
      ensures frame == SignedFrame(aes, old(View()), command)
      ensures sequence == Next(old(sequence))
    {
      ghost var r := View();
      var packet := new bv8[MAX_FRAME_LEN](_ => 0);
      Start(packet, 9, command);
      packet[9] := 0x00;
      packet[10] := High(sequence);
      packet[11] := Low(sequence);
      assert packet[8..10] == [command, 0x00] && packet[10..12] == Big(sequence);
      assert packet[..12] == Header(r, 17, command) + [0x00] + Big(sequence);
      var hmac := Create1WHmac(aes, packet[10..12], key, packet[8..10]);
      sequence := Next(sequence);
      Copy(packet, 12, hmac[..6]);
      frame := packet[..17 + 1];
      assert frame == packet[..12] + packet[12..18];
    }

    /** cmd(Add). */
    method SendKey(aes: Encryption) returns (frame: Frame)
      modifies this`sequence
      ensures frame == KeyFrame(aes, old(View()))
      ensures sequence == Next(old(sequence))
    {
      ghost var r := View();
      var packet := new bv8[MAX_FRAME_LEN](_ => 0);
      Start(packet, 20, 0x30);
      var encKey := new bv8[16](i requires 0 <= i < 16 => key[i]);
      assert encKey[..] == key;
      Encrypt1WKey(aes, node, encKey);
      Copy(packet, 9, encKey[..]);
      packet[25] := manufacturer;
      packet[26] := 0x01;
      packet[27] := High(sequence);
      packet[28] := Low(sequence);
      sequence := Next(sequence);
      frame := packet[..28 + 1];
      assert packet[..9] == Header(r, 28, 0x30);
      assert frame == packet[..9] + packet[9..25] + [packet[25], packet[26]] + [packet[27], packet[28]];
    }
  }

  /** memcpy, and the byte-by-byte loops the code uses for it. */
  method Copy(packet: array<bv8>, at: nat, bytes: seq<bv8>)
    requires at + |bytes| <= packet.Length
    modifies packet
    ensures packet[..at] == old(packet[..at]) && packet[at..at + |bytes|] == bytes
  {
    for i := 0 to |bytes|
      invariant packet[..at] == old(packet[..at]) && packet[at..at + i] == bytes[..i]
    {
      packet[at + i] := bytes[i];
      assert packet[at..at + i + 1] == packet[at..at + i] + [bytes[i]];
      assert bytes[..i + 1] == bytes[..i] + [bytes[i]];
    }
    assert bytes[..|bytes|] == bytes;
  }
}
