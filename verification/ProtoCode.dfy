/** The writer, the reader and the command handlers as the server runs them. */
module ProtoCode {
  import opened Wire
  import opened Decoding

  class ProtoWriter {
    var buffer: seq<Byte>

    constructor ()
      ensures buffer == []
    {
      buffer := [];
    }

    method WriteVarint(value: nat)
      modifies this
      ensures buffer == old(buffer) + Varint(value)
    {
      var val := value;
      while val >= 0x80
        invariant buffer + Varint(val) == old(buffer) + Varint(value)
      {
        assert Varint(val) == [val % 128 + 128] + Varint(val / 128);
        buffer := buffer + [val % 128 + 128];
        val := val / 128;
      }
      buffer := buffer + [val];
    }

    method WriteTag(field: nat, wireType: nat)
      requires wireType < 8
      modifies this
      ensures buffer == old(buffer) + Tag(field, wireType)
    {
      WriteVarint(field * 8 % UINT32 + wireType);
    }

    method WriteVarintField(field: nat, val: nat)
      modifies this
      ensures buffer == old(buffer) + Encoding(Scalar(field, val))
    {
      WriteTag(field, 0);
      WriteVarint(val);
    }

    method WriteBoolField(field: nat, val: bool)
      modifies this
      ensures buffer == old(buffer) + Encoding(Scalar(field, if val then 1 else 0))
    {
      WriteTag(field, 0);
      WriteVarint(if val then 1 else 0);
    }

    method WriteFixed32Field(field: nat, val: nat)
      modifies this
      ensures buffer == old(buffer) + Encoding(Fixed(field, val))
    {
      WriteTag(field, 5);
      buffer := buffer + [Octet(val)];
      buffer := buffer + [Octet(val / 256)];
      buffer := buffer + [Octet(val / 65536)];
      buffer := buffer + [Octet(val / 16777216)];
    }

    /** An empty string is not written at all. */
    method WriteStringField(field: nat, str: seq<Byte>)
      modifies this
      ensures buffer == if str == [] then old(buffer) else old(buffer) + Encoding(Blob(field, str))
    {
      hide Tag, Varint;
      if str == [] {
        return;
      }
      WriteTag(field, 2);
      WriteVarint(|str|);
      buffer := buffer + str;
    }
  }

  datatype StringRead = Refused | Text(str: seq<Byte>) | Outside

  class ProtoReader {
    const data: seq<Byte>
    var offset: nat

    constructor (data: seq<Byte>)
      ensures this.data == data && offset == 0
    {
      this.data, this.offset := data, 0;
    }

    method ReadVarint() returns (ok: bool, val: nat)
      modifies this`offset
      ensures Read(ok, val, offset) == Wire.ReadVarint(data, old(offset))
    {
      val := 0;
      var shift, k := 0, 0;
      while offset < |data|
        invariant k < 10 && shift == 7 * k && val < UINT64
        invariant ReadGroups(data, offset, k, val) == Wire.ReadVarint(data, old(offset))
        decreases |data| - offset
      {
        var b := data[offset];
        offset := offset + 1;
        val := (val + Placed(b % 128, k)) % UINT64;
        if b < 128 {
          return true, val;
        }
        shift := shift + 7;
        if shift >= 64 {
          return false, val;
        }
        k := k + 1;
      }
      ok := false;
    }

    method ReadTag() returns (ok: bool, field: nat, wireType: nat)
      modifies this`offset
      ensures TagRead(ok, field, wireType, offset) == Wire.ReadTag(data, old(offset))
    {
      var raw;
      ok, raw := ReadVarint();
      field, wireType := raw / 8 % UINT32, raw % 8;
    }

    method ReadFixed32(before: nat) returns (ok: bool, val: nat)
      modifies this`offset
      ensures Read(ok, val, offset) == Wire.ReadFixed32(data, old(offset), before)
    {
      if offset + 4 > |data| {
        return false, before;
      }
      val := LittleEndian(data[offset], data[offset + 1], data[offset + 2], data[offset + 3]);
      offset := offset + 4;
      ok := true;
    }

    method SkipField(wireType: nat) returns (ok: bool)
      modifies this`offset
      ensures Skip(ok, offset) == Wire.SkipField(data, old(offset), wireType)
    {
      if wireType == 0 {
        var dummy;
        ok, dummy := ReadVarint();
      } else if wireType == 1 {
        if offset + 8 > |data| {
          return false;
        }
        offset := offset + 8;
        ok := true;
      } else if wireType == 2 {
        var read, len := ReadVarint();
        if !read {
          return false;
        }
        if (offset + len) % UINT64 > |data| {
          return false;
        }
        offset := (offset + len) % UINT64 % UINT32;
        ok := true;
      } else if wireType == 5 {
        if offset + 4 > |data| {
          return false;
        }
        offset := offset + 4;
        ok := true;
      } else {
        ok := false;
      }
    }

    /** readString. A refused read leaves the string alone. When the addition wraps, a length beyond
        the end of the buffer passes the test, and the bytes taken would lie outside it. */
    method ReadString() returns (r: StringRead)
      requires offset <= |data| < UINT32
      modifies this`offset
      ensures Skip(r != Refused, offset) == Wire.SkipField(data, old(offset), 2)
      ensures r.Outside? <==> r != Refused && !NoWrap(data, old(offset))
      ensures r.Text? ==>
        && |r.str| == Wire.ReadVarint(data, old(offset)).value
        && At(data, Wire.ReadVarint(data, old(offset)).offset, r.str)
    {
      var read, len := ReadVarint();
      if !read {
        return Refused;
      }
      Sum64(offset + len);
      if (offset + len) % UINT64 > |data| {
        return Refused;
      }
      if offset + len > |data| {
        r := Outside;
      } else {
        r := Text(data[offset..offset + len]);
      }
      offset := (offset + len) % UINT64 % UINT32;
    }
  }

  const START: State := State(0, map[])

  datatype CoverCommand = CoverCommand(key: nat, hasLegacyCmd: bool, legacyCmd: nat, hasPosition: bool,
                                       position: nat, stop: bool)

  function CoverOf(v: map<nat, nat>): CoverCommand {
    CoverCommand(Get(v, 1), Get(v, 2) != 0, Get(v, 3) % UINT32, Get(v, 4) != 0, Get(v, 5), Get(v, 8) != 0)
  }

  /** One field of a cover command. */
  method CoverField(reader: ProtoReader, field: nat, wireType: nat, c: CoverCommand, ghost values: map<nat, nat>)
    returns (next: CoverCommand, ghost after: map<nat, nat>)
    requires c == CoverOf(values)
    modifies reader`offset
    ensures next == CoverOf(after)
    ensures State(reader.offset, after) ==
      Taken(COVER, reader.data, TagRead(true, field, wireType, old(reader.offset)), values)
  {
    after := Taken(COVER, reader.data, TagRead(true, field, wireType, reader.offset), values).values;
    next := c;
    var ok, v;
    if field == 1 && wireType == 5 {
      ok, v := reader.ReadFixed32(c.key);
      next := c.(key := v);
    } else if field == 2 && wireType == 0 {
      ok, v := reader.ReadVarint();
      next := c.(hasLegacyCmd := v != 0);
    } else if field == 3 && wireType == 0 {
      ok, v := reader.ReadVarint();
      next := c.(legacyCmd := v % UINT32);
    } else if field == 4 && wireType == 0 {
      ok, v := reader.ReadVarint();
      next := c.(hasPosition := v != 0);
    } else if field == 5 && wireType == 5 {
      ok, v := reader.ReadFixed32(c.position);
      next := c.(position := v);
    } else if field == 8 && wireType == 0 {
      ok, v := reader.ReadVarint();
      next := c.(stop := v != 0);
    } else {
      ok := reader.SkipField(wireType);
    }
  }

  /** The loop of handleCoverCommand; the position is the bit pattern of its float. */
  method HandleCoverCommand(data: seq<Byte>) returns (c: CoverCommand)
    requires Decode(COVER, data, START).Some?
    ensures c == CoverOf(Decode(COVER, data, START).value)
  {
    var reader := new ProtoReader(data);
    c := CoverCommand(0, false, 0, false, 0, false);
    ghost var values: map<nat, nat> := map[];
    while reader.offset < |data|
      invariant reader.data == data
      invariant Decode(COVER, data, State(reader.offset, values)) == Decode(COVER, data, START)
      invariant c == CoverOf(values)
      decreases |data| - reader.offset
    {
      var ok, field, wireType := reader.ReadTag();
      if !ok {
        break;
      }
      c, values := CoverField(reader, field, wireType, c, values);
    }
  }

  /** The loop of handleNumberCommand; the state is the bit pattern of its float. */
  method HandleNumberCommand(data: seq<Byte>) returns (key: nat, state: nat)
    requires Decode(NUMBER, data, START).Some?
    ensures var v := Decode(NUMBER, data, START).value; key == Get(v, 1) && state == Get(v, 2)
  {
    var reader := new ProtoReader(data);
    key, state := 0, 0;
    ghost var values: map<nat, nat> := map[];
    while reader.offset < |data|
      invariant reader.data == data
      invariant Decode(NUMBER, data, State(reader.offset, values)) == Decode(NUMBER, data, START)
      invariant key == Get(values, 1) && state == Get(values, 2)
      decreases |data| - reader.offset
    {
      ghost var turn := Turn(NUMBER, data, State(reader.offset, values));
      var ok, field, wireType := reader.ReadTag();
      if !ok {
        break;
      }
      if field == 1 && wireType == 5 {
        ok, key := reader.ReadFixed32(key);
      } else if field == 2 && wireType == 5 {
        ok, state := reader.ReadFixed32(state);
      } else {
        ok := reader.SkipField(wireType);
      }
      values := turn.value.values;
    }
  }

  method HandleButtonCommand(data: seq<Byte>) returns (key: nat)
    requires Decode(BUTTON, data, START).Some?
    ensures key == Get(Decode(BUTTON, data, START).value, 1)
  {
    var reader := new ProtoReader(data);
    key := 0;
    ghost var values: map<nat, nat> := map[];
    while reader.offset < |data|
      invariant reader.data == data
      invariant Decode(BUTTON, data, State(reader.offset, values)) == Decode(BUTTON, data, START)
      invariant key == Get(values, 1)
      decreases |data| - reader.offset
    {
      ghost var turn := Turn(BUTTON, data, State(reader.offset, values));
      var ok, field, wireType := reader.ReadTag();
      if !ok {
        break;
      }
      if field == 1 && wireType == 5 {
        ok, key := reader.ReadFixed32(key);
      } else {
        ok := reader.SkipField(wireType);
      }
      values := turn.value.values;
    }
  }

  // ---------------------------------------------------------------- what the commands mean

  ghost predicate Wellformed(fields: seq<Field>) {
    (forall f :: f in fields ==> WellFormed(f)) && |Message(fields)| < UINT32
  }

  /** A cover command means what its last fields say: the key is field 1, the legacy command field 3 if
      field 2 is not 0, the position field 5 if field 4 is not 0, and stop is field 8. */
  lemma CoverMeans(fields: seq<Field>)
    requires Wellformed(fields)
    ensures Decode(COVER, Message(fields), START).Some?
    ensures var c := CoverOf(Decode(COVER, Message(fields), START).value);
      && c.key == LastFixed(fields, 1, 0)
      && (c.hasLegacyCmd <==> LastScalar(fields, 2, 0) != 0) && c.legacyCmd == LastScalar(fields, 3, 0) % UINT32
      && (c.hasPosition <==> LastScalar(fields, 4, 0) != 0) && c.position == LastFixed(fields, 5, 0)
      && (c.stop <==> LastScalar(fields, 8, 0) != 0)
  {
    FieldsDecoded(COVER, Message(fields), START, fields);
    FixedCollected(COVER, fields, 1, map[]);
    ScalarCollected(COVER, fields, 2, map[]);
    ScalarCollected(COVER, fields, 3, map[]);
    ScalarCollected(COVER, fields, 4, map[]);
    FixedCollected(COVER, fields, 5, map[]);
    ScalarCollected(COVER, fields, 8, map[]);
  }

  /** A number command has its key in field 1 and its state in field 2, both of 32 bits; a button command
      has its key in field 1. */
  lemma NumberAndButtonMean(fields: seq<Field>)
    requires Wellformed(fields)
    ensures Decode(NUMBER, Message(fields), START).Some? && Decode(BUTTON, Message(fields), START).Some?
    ensures var v := Decode(NUMBER, Message(fields), START).value;
            Get(v, 1) == LastFixed(fields, 1, 0) && Get(v, 2) == LastFixed(fields, 2, 0)
    ensures Get(Decode(BUTTON, Message(fields), START).value, 1) == LastFixed(fields, 1, 0)
  {
    FieldsDecoded(NUMBER, Message(fields), START, fields);
    FieldsDecoded(BUTTON, Message(fields), START, fields);
    FixedCollected(NUMBER, fields, 1, map[]);
    FixedCollected(NUMBER, fields, 2, map[]);
    FixedCollected(BUTTON, fields, 1, map[]);
  }
}
