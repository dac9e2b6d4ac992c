/** Protocol Buffers on the wire, as the ESPHome server reads and writes it. Bytes and 64-bit values
    are natural numbers below 2^8 and 2^64; or-ing disjoint bits is addition. */
module Wire {
  import Cyclic

  type Byte = b: nat | b < 256

  const UINT64: nat := 0x1_0000_0000_0000_0000
  const UINT32: nat := 0x1_0000_0000

  // ---------------------------------------------------------------- varints

  function Pow128(k: nat): (p: nat)
    ensures p > 0
  {
    if k == 0 then 1 else 128 * Pow128(k - 1)
  }

  /** A group of seven bits at its place. */
  function Placed(group: nat, k: nat): nat {
    group * Pow128(k)
  }

  /** The Base 128 Varint of a value. */
  function Varint(v: nat): (bytes: seq<Byte>)
    ensures |bytes| > 0
  {
    if v >= 128 then [v % 128 + 128] + Varint(v / 128) else [v]
  }

  /** Its bytes are the base-128 digits of the value, the lowest first; all but the last have the top bit
      set, and the last is not 0 unless it is the only one. */
  lemma {:induction false} VarintDigits(v: nat, k: nat)
    requires k < |Varint(v)|
    ensures Varint(v)[k] % 128 == v / Pow128(k) % 128
    ensures Varint(v)[k] >= 128 <==> k + 1 < |Varint(v)|
    ensures k > 0 && k + 1 == |Varint(v)| ==> Varint(v)[k] != 0
    decreases k
  {
    if k > 0 {
      VarintDigits(v / 128, k - 1);
      DivideTwice(v, Pow128(k - 1));
      assert Varint(v)[k] == Varint(v / 128)[k - 1];
    }
  }

  lemma DivideTwice(v: nat, p: nat)
    requires p > 0
    ensures v / 128 / p == v / (128 * p)
  {
    var q := v / 128;
    var r, m := q / p, q % p;
    assert q == p * r + m;
    assert v == 128 * p * r + (128 * m + v % 128) by {
      assert v == 128 * (p * r + m) + v % 128;
    }
    assert 128 * m + v % 128 < 128 * p;
    Cyclic.Quotient(v, 128 * p, r, 128 * m + v % 128);
  }

  /** What a read leaves behind: also a failed one has a value and may have consumed bytes. */
  datatype Read = Read(ok: bool, value: nat, offset: nat)

  /** readVarint, `k` groups of seven bits into it. */
  function ReadGroups(data: seq<Byte>, offset: nat, k: nat, value: nat): (r: Read)
    requires value < UINT64 && k < 10
    ensures r.value < UINT64 && r.offset >= offset && (r.offset <= |data| || r.offset == offset)
    ensures offset < |data| ==> r.offset > offset
    decreases 10 - k
  {
    if offset >= |data| then Read(false, value, offset)
    else
      var b := data[offset];
      var next := (value + Placed(b % 128, k)) % UINT64;
      if b < 128 then Read(true, next, offset + 1)
      else if 7 * (k + 1) >= 64 then Read(false, next, offset + 1)
      else ReadGroups(data, offset + 1, k + 1, next)
  }

  function ReadVarint(data: seq<Byte>, offset: nat): (r: Read)
    ensures r.value < UINT64 && r.offset >= offset && (r.offset <= |data| || r.offset == offset)
    ensures offset < |data| ==> r.offset > offset
  {
    ReadGroups(data, offset, 0, 0)
  }

  /** Holds at every offset: `bytes` lies there. */
  predicate At(data: seq<Byte>, offset: nat, bytes: seq<Byte>) {
    offset + |bytes| <= |data| && data[offset..offset + |bytes|] == bytes
  }

  lemma AtSplit(data: seq<Byte>, offset: nat, x: seq<Byte>, y: seq<Byte>)
    requires At(data, offset, x + y)
    ensures At(data, offset, x) && At(data, offset + |x|, y)
  {
    assert (x + y)[..|x|] == x && (x + y)[|x|..] == y;
    assert data[offset..offset + |x + y|][..|x|] == data[offset..offset + |x|];
    assert data[offset..offset + |x + y|][|x|..] == data[offset + |x|..offset + |x| + |y|];
  }

  lemma Pow10()
    ensures Pow128(9) == 0x8000_0000_0000_0000 && Pow128(10) == 128 * Pow128(9)
  {
    assert Pow128(3) == 0x20_0000;
    assert Pow128(6) == 0x400_0000_0000;
  }

  lemma GroupsLeft(v: nat, k: nat)
    requires v >= 128 && k < 10 && Placed(v, k) < UINT64
    ensures k < 9
  {
    if k == 9 {
      Pow10();
    }
  }

  lemma SplitValue(v: nat, k: nat)
    ensures Placed(v, k) == Placed(v % 128, k) + Placed(v / 128, k + 1)
  {
    var p, q, m := Pow128(k), v / 128, v % 128;
    assert v == 128 * q + m;
    assert (128 * q + m) * p == 128 * q * p + m * p;
    assert q * (128 * p) == 128 * q * p;
  }

  /** A value that fits stays what it is when its lowest group is added. */
  lemma AddGroup(value: nat, v: nat, k: nat)
    requires value + Placed(v, k) < UINT64
    ensures (value + Placed(v % 128, k)) % UINT64 == value + Placed(v % 128, k)
    ensures value + Placed(v % 128, k) + Placed(v / 128, k + 1) == value + Placed(v, k)
  {
    SplitValue(v, k);
  }

  lemma LastGroup(data: seq<Byte>, offset: nat, k: nat, value: nat)
    requires k < 10 && value < UINT64 && offset < |data| && data[offset] < 128
    ensures ReadGroups(data, offset, k, value) ==
      Read(true, (value + Placed(data[offset] % 128, k)) % UINT64, offset + 1)
  {
  }

  lemma MoreGroups(data: seq<Byte>, offset: nat, k: nat, value: nat)
    requires k < 9 && value < UINT64 && offset < |data| && data[offset] >= 128
    ensures ReadGroups(data, offset, k, value) ==
      ReadGroups(data, offset + 1, k + 1, (value + Placed(data[offset] % 128, k)) % UINT64)
  {
  }

  lemma {:induction false} ReadGroupsBack(data: seq<Byte>, offset: nat, k: nat, value: nat, v: nat)
    requires k < 10 && value + Placed(v, k) < UINT64 && At(data, offset, Varint(v))
    ensures ReadGroups(data, offset, k, value) == Read(true, value + Placed(v, k), offset + |Varint(v)|)
    decreases v
  {
    hide Placed, ReadGroups;
    AddGroup(value, v, k);
    if v < 128 {
      assert data[offset..offset + 1][0] == v;
      LastGroup(data, offset, k, value);
    } else {
      AtSplit(data, offset, [v % 128 + 128], Varint(v / 128));
      assert data[offset..offset + 1][0] == v % 128 + 128;
      GroupsLeft(v, k);
      MoreGroups(data, offset, k, value);
      ReadGroupsBack(data, offset + 1, k + 1, value + Placed(v % 128, k), v / 128);
    }
  }

  /** Every 64-bit value reads back, wherever its varint lies, and the reader stops right behind it. */
  lemma VarintRoundTrip(data: seq<Byte>, offset: nat, v: nat)
    requires v < UINT64 && At(data, offset, Varint(v))
    ensures ReadVarint(data, offset) == Read(true, v, offset + |Varint(v)|)
  {
    ReadGroupsBack(data, offset, 0, 0, v);
  }

  // ---------------------------------------------------------------- tags and fixed-size values

  /** writeTag works in 32 bits. */
  function Tag(field: nat, wireType: nat): (bytes: seq<Byte>)
    requires wireType < 8
    ensures |bytes| > 0
  {
    Varint(field * 8 % UINT32 + wireType)
  }

  datatype TagRead = TagRead(ok: bool, field: nat, wireType: nat, offset: nat)

  function ReadTag(data: seq<Byte>, offset: nat): (r: TagRead)
    ensures r.wireType < 8 && r.offset >= offset && (r.offset <= |data| || r.offset == offset)
    ensures offset < |data| ==> r.offset > offset
  {
    var r := ReadVarint(data, offset);
    TagRead(r.ok, r.value / 8 % UINT32, r.value % 8, r.offset)
  }

  /** A tag reads back its wire type, and its field number modulo 2^29: exactly when it is below. */
  lemma TagRoundTrip(data: seq<Byte>, offset: nat, field: nat, wireType: nat)
    requires wireType < 8 && At(data, offset, Tag(field, wireType))
    ensures ReadTag(data, offset) == TagRead(true, field % 0x2000_0000, wireType, offset + |Tag(field, wireType)|)
    ensures ReadTag(data, offset).field == field <==> field < 0x2000_0000
  {
    hide Varint, ReadVarint;
    VarintRoundTrip(data, offset, field * 8 % UINT32 + wireType);
    Shifted(field);
  }

  lemma Shifted(field: nat)
    ensures field * 8 % UINT32 == field % 0x2000_0000 * 8
    ensures field % 0x2000_0000 == field <==> field < 0x2000_0000
  {
    var q, r := field / 0x2000_0000, field % 0x2000_0000;
    assert field * 8 == q * UINT32 + r * 8;
  }

  function Octet(v: nat): Byte { v % 256 }

  function Word(v: nat): (bytes: seq<Byte>)
    ensures |bytes| == 4
  {
    [Octet(v), Octet(v / 256), Octet(v / 65536), Octet(v / 16777216)]
  }

  /** readFixed32; a failed read leaves the variable it was given alone. */
  function ReadFixed32(data: seq<Byte>, offset: nat, before: nat): (r: Read)
    ensures r.offset >= offset && (r.offset <= |data| || r.offset == offset)
  {
    if offset + 4 > |data| then Read(false, before, offset)
    else Read(true, LittleEndian(data[offset], data[offset + 1], data[offset + 2], data[offset + 3]), offset + 4)
  }

  function LittleEndian(b0: nat, b1: nat, b2: nat, b3: nat): nat {
    b0 + b1 * 256 + b2 * 65536 + b3 * 16777216
  }

  lemma OctetsOf(v: nat)
    requires v < UINT32
    ensures LittleEndian(Octet(v), Octet(v / 256), Octet(v / 65536), Octet(v / 16777216)) == v
  {
    var q1 := v / 256;
    var q2 := q1 / 256;
    var q3 := q2 / 256;
    assert v == 256 * q1 + v % 256 && q1 == 256 * q2 + q1 % 256 && q2 == 256 * q3 + q2 % 256;
    assert v / 65536 == q2 && v / 16777216 == q3 && q3 < 256;
  }

  lemma Fixed32RoundTrip(data: seq<Byte>, offset: nat, v: nat, before: nat)
    requires v < UINT32 && At(data, offset, Word(v))
    ensures ReadFixed32(data, offset, before) == Read(true, v, offset + 4)
  {
    var w := data[offset..offset + 4];
    assert w[0] == data[offset] && w[1] == data[offset + 1] && w[2] == data[offset + 2] && w[3] == data[offset + 3];
    OctetsOf(v);
  }

  // ---------------------------------------------------------------- skipping

  datatype Skip = Skip(ok: bool, offset: nat)

  /** skipField: the sum of offset and length is taken in 64 bits, the new offset kept in 32. */
  function SkipField(data: seq<Byte>, offset: nat, wireType: nat): Skip {
    if wireType == 0 then
      var r := ReadVarint(data, offset);
      Skip(r.ok, r.offset)
    else if wireType == 1 then
      if offset + 8 > |data| then Skip(false, offset) else Skip(true, offset + 8)
    else if wireType == 2 then
      var r := ReadVarint(data, offset);
      if !r.ok || (r.offset + r.value) % UINT64 > |data| then Skip(false, r.offset)
      else Skip(true, (r.offset + r.value) % UINT64 % UINT32)
    else if wireType == 5 then
      if offset + 4 > |data| then Skip(false, offset) else Skip(true, offset + 4)
    else Skip(false, offset)
  }

  /** The length at `offset`, if there is one, does not carry the addition round 2^64. */
  predicate NoWrap(data: seq<Byte>, offset: nat) {
    var r := ReadVarint(data, offset);
    r.ok ==> r.offset + r.value < UINT64
  }

  lemma Sum64(sum: nat)
    requires sum < 2 * UINT64
    ensures sum % UINT64 == if sum < UINT64 then sum else sum - UINT64
  {
  }

  /** Skipping never leaves the buffer. */
  lemma SkipStaysInside(data: seq<Byte>, offset: nat, wireType: nat)
    requires offset <= |data| < UINT32
    ensures SkipField(data, offset, wireType).offset <= |data|
    ensures wireType != 2 || NoWrap(data, offset) ==> SkipField(data, offset, wireType).offset >= offset
  {
    hide ReadVarint;
    var r := ReadVarint(data, offset);
    Sum64(r.offset + r.value);
  }

  /** A length that is accepted moves the reader on from behind it exactly when the addition does not
      wrap. */
  lemma BlobMovesOn(data: seq<Byte>, offset: nat)
    requires offset <= |data| < UINT32 && SkipField(data, offset, 2).ok
    ensures SkipField(data, offset, 2).offset >= ReadVarint(data, offset).offset <==> NoWrap(data, offset)
  {
    hide ReadVarint;
    var r := ReadVarint(data, offset);
    Sum64(r.offset + r.value);
  }

  // ---------------------------------------------------------------- fields

  datatype Field =
    | Scalar(number: nat, value: nat)
    | Long(number: nat, bytes: seq<Byte>)
    | Blob(number: nat, bytes: seq<Byte>)
    | Fixed(number: nat, value: nat)

  function WireType(f: Field): (w: nat)
    ensures w < 8
  {
    match f
    case Scalar(_, _) => 0
    case Long(_, _) => 1
    case Blob(_, _) => 2
    case Fixed(_, _) => 5
  }

  predicate WellFormed(f: Field) {
    && f.number < 0x2000_0000
    && match f
       case Scalar(_, v) => v < UINT64
       case Long(_, b) => |b| == 8
       case Blob(_, b) => |b| < UINT64
       case Fixed(_, v) => v < UINT32
  }

  function Content(f: Field): seq<Byte> {
    match f
    case Scalar(_, v) => Varint(v)
    case Long(_, b) => b
    case Blob(_, b) => Varint(|b|) + b
    case Fixed(_, v) => Word(v)
  }

  function Encoding(f: Field): seq<Byte> {
    Tag(f.number, WireType(f)) + Content(f)
  }

  function Message(fields: seq<Field>): seq<Byte> {
    if fields == [] then [] else Encoding(fields[0]) + Message(fields[1..])
  }

  lemma FieldSkipped(data: seq<Byte>, offset: nat, f: Field)
    requires WellFormed(f) && At(data, offset, Content(f)) && |data| < UINT32
    ensures SkipField(data, offset, WireType(f)) == Skip(true, offset + |Content(f)|)
  {
    match f
    case Scalar(_, v) => VarintRoundTrip(data, offset, v);
    case Long(_, b) =>
    case Blob(_, b) =>
      AtSplit(data, offset, Varint(|b|), b);
      VarintRoundTrip(data, offset, |b|);
    case Fixed(_, v) =>
  }

  /** Every well-formed field that was written reads back: its number, its wire type, its value; and
      the reader stops right behind it. */
  lemma FieldRoundTrip(data: seq<Byte>, offset: nat, f: Field)
    requires WellFormed(f) && At(data, offset, Encoding(f)) && |data| < UINT32
    ensures var t := ReadTag(data, offset);
      && t.ok && t.field == f.number && t.wireType == WireType(f)
      && (f.Scalar? ==> ReadVarint(data, t.offset) == Read(true, f.value, offset + |Encoding(f)|))
      && (f.Fixed? ==> ReadFixed32(data, t.offset, 0) == Read(true, f.value, offset + |Encoding(f)|))
      && (f.Blob? ==>
            var r := ReadVarint(data, t.offset);
            r.ok && r.value == |f.bytes| && NoWrap(data, t.offset) && At(data, r.offset, f.bytes))
      && SkipField(data, t.offset, t.wireType) == Skip(true, offset + |Encoding(f)|)
  {
    hide Tag, Varint, ReadTag, ReadVarint, SkipField;
    var tag := Tag(f.number, WireType(f));
    AtSplit(data, offset, tag, Content(f));
    TagRoundTrip(data, offset, f.number, WireType(f));
    var after := offset + |tag|;
    FieldSkipped(data, after, f);
    match f
    case Scalar(_, v) => VarintRoundTrip(data, after, v);
    case Long(_, b) =>
    case Blob(_, b) =>
      AtSplit(data, after, Varint(|b|), b);
      VarintRoundTrip(data, after, |b|);
    case Fixed(_, v) => Fixed32RoundTrip(data, after, v, 0);
  }

  /** The examples of the Protocol Buffers Encoding guide: field 1 with the value 150, and field 2 with
      the string "testing". */
  lemma GuideExamples()
    ensures Encoding(Scalar(1, 150)) == [0x08, 0x96, 0x01]
    ensures Encoding(Blob(2, [0x74, 0x65, 0x73, 0x74, 0x69, 0x6e, 0x67]))
         == [0x12, 0x07, 0x74, 0x65, 0x73, 0x74, 0x69, 0x6e, 0x67]
    ensures Encoding(Fixed(1, 0x0403_0201)) == [0x0d, 0x01, 0x02, 0x03, 0x04]
  {
  }
}
