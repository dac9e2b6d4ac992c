/** The field loops of the command handlers: known fields are taken, all others skipped. */
module Decoding {
  import opened RadioTypes
  import opened Wire

  /** The fields a handler knows, with the wire type it expects: 0 (a varint) or 5 (32 bits). */
  type Schema = map<nat, nat>

  const COVER: Schema := map[1 := 5, 2 := 0, 3 := 0, 4 := 0, 5 := 5, 8 := 0]
  const NUMBER: Schema := map[1 := 5, 2 := 5]
  const BUTTON: Schema := map[1 := 5]

  predicate Scalars(schema: Schema) {
    forall n :: n in schema ==> schema[n] == 0 || schema[n] == 5
  }

  predicate Knows(schema: Schema, number: nat, wireType: nat) {
    number in schema && schema[number] == wireType
  }

  function Get(values: map<nat, nat>, number: nat): nat {
    if number in values then values[number] else 0
  }

  /** The reader's position and the values taken so far. */
  datatype State = State(offset: nat, values: map<nat, nat>)

  /** One turn of the loop; None ends it. Failures to read a value are not looked at. */
  function Turn(schema: Schema, data: seq<Byte>, s: State): (r: Option<State>) {
    var t := ReadTag(data, s.offset);
    if t.ok then Some(Taken(schema, data, t, s.values)) else None
  }

  /** What follows the tag `t`. */
  function Taken(schema: Schema, data: seq<Byte>, t: TagRead, values: map<nat, nat>): State {
    if Knows(schema, t.field, t.wireType) && t.wireType == 5 then
      var r := ReadFixed32(data, t.offset, Get(values, t.field));
      State(r.offset, values[t.field := r.value])
    else if Knows(schema, t.field, t.wireType) then
      var r := ReadVarint(data, t.offset);
      State(r.offset, values[t.field := r.value])
    else State(SkipField(data, t.offset, t.wireType).offset, values)
  }

  /** The values the loop ends with; None if some turn does not move the reader on. */
  function Decode(schema: Schema, data: seq<Byte>, s: State): Option<map<nat, nat>>
    decreases |data| - s.offset
  {
    if s.offset >= |data| then Some(s.values)
    else
      var next := Turn(schema, data, s);
      if next.None? then Some(s.values)
      else if next.value.offset <= s.offset then None
      else Decode(schema, data, next.value)
  }

  // ---------------------------------------------------------------- arbitrary bytes

  /** The turn skips a length-delimited field whose length wraps the addition and leads back to where
      the turn began, or before it. */
  predicate GoesBack(schema: Schema, data: seq<Byte>, s: State) {
    var t := ReadTag(data, s.offset);
    t.ok && t.wireType == 2 && !Knows(schema, t.field, t.wireType) && LeadsBack(ReadVarint(data, t.offset), s.offset)
  }

  predicate LeadsBack(r: Read, offset: nat) {
    r.ok && UINT64 <= r.offset + r.value <= UINT64 + offset
  }

  /** No turn of the whole loop does. */
  predicate NeverGoesBack(schema: Schema, data: seq<Byte>, s: State)
    decreases |data| - s.offset
  {
    s.offset < |data| ==>
      && !GoesBack(schema, data, s)
      && var next := Turn(schema, data, s);
      (next.Some? && next.value.offset > s.offset ==> NeverGoesBack(schema, data, next.value))
  }

  /** Every turn of the whole loop moves the reader on and leaves it inside the buffer. */
  predicate AllTurnsMoveOn(schema: Schema, data: seq<Byte>, s: State)
    decreases |data| - s.offset
  {
    && s.offset <= |data|
    && (s.offset < |data| ==>
          var next := Turn(schema, data, s);
          (next.Some? ==> s.offset < next.value.offset && AllTurnsMoveOn(schema, data, next.value)))
  }

  /** On any bytes a turn leaves the reader inside the buffer, and moves it on unless it goes back. */
  lemma TurnMovesOn(schema: Schema, data: seq<Byte>, s: State)
    requires Scalars(schema) && s.offset < |data| < UINT32
    ensures var r := Turn(schema, data, s); r.Some? ==> r.value.offset <= |data|
    ensures var r := Turn(schema, data, s); (r.Some? ==> s.offset < r.value.offset) <==> !GoesBack(schema, data, s)
  {
    hide ReadVarint;
    var t := ReadTag(data, s.offset);
    if t.ok {
      SkipStaysInside(data, t.offset, t.wireType);
      if t.wireType == 2 {
        Sum64(ReadVarint(data, t.offset).offset + ReadVarint(data, t.offset).value);
      }
    }
  }

  /** On any bytes the loop ends, with each turn moving on inside the buffer, exactly if no turn goes
      back. */
  lemma {:induction false} DecodeEnds(schema: Schema, data: seq<Byte>, s: State)
    requires Scalars(schema) && s.offset <= |data| < UINT32
    ensures AllTurnsMoveOn(schema, data, s) <==> NeverGoesBack(schema, data, s)
    ensures Decode(schema, data, s).Some? <==> NeverGoesBack(schema, data, s)
    decreases |data| - s.offset
  {
    hide Turn, GoesBack;
    if s.offset < |data| {
      TurnMovesOn(schema, data, s);
      var next := Turn(schema, data, s);
      if next.Some? && s.offset < next.value.offset {
        DecodeEnds(schema, data, next.value);
      }
    }
  }

  /** A length that wraps the addition can bring the reader back to where it was. */
  lemma WrappedLengthGoesBack()
    ensures var data := [0x3A] + Varint(UINT64 - 11);
      |data| == 11 && Turn(COVER, data, State(0, map[])) == Some(State(0, map[]))
  {
    hide Varint, ReadVarint, Pow128, ReadTag;
    var v := UINT64 - 11;
    var data := [0x3A] + Varint(v);
    Pow10();
    VarintLength(v, 9);
    assert At(data, 1, Varint(v));
    VarintRoundTrip(data, 1, v);
    SmallTag();
    assert At(data, 0, Tag(7, 2));
    TagRoundTrip(data, 0, 7, 2);
  }

  lemma SmallTag()
    ensures Tag(7, 2) == [0x3A]
  {
  }

  lemma {:induction false} VarintLength(v: nat, k: nat)
    requires if k == 0 then v < 128 else Pow128(k) <= v < Pow128(k + 1)
    ensures |Varint(v)| == k + 1
    decreases k
  {
    if k > 0 {
      VarintLength(v / 128, k - 1);
    }
  }

  // ---------------------------------------------------------------- well-formed fields

  function Value(f: Field): nat {
    if f.Scalar? || f.Fixed? then f.value else 0
  }

  function Entered(schema: Schema, f: Field, values: map<nat, nat>): map<nat, nat> {
    if Knows(schema, f.number, WireType(f)) then values[f.number := Value(f)] else values
  }

  /** What a handler makes of a list of fields: for each known one the value last given. */
  function Collect(schema: Schema, fields: seq<Field>, values: map<nat, nat>): map<nat, nat> {
    if fields == [] then values else Collect(schema, fields[1..], Entered(schema, fields[0], values))
  }

  lemma ContentTaken(schema: Schema, data: seq<Byte>, t: TagRead, values: map<nat, nat>, f: Field)
    requires Scalars(schema) && WellFormed(f) && At(data, t.offset, Content(f)) && |data| < UINT32
    requires t.field == f.number && t.wireType == WireType(f)
    ensures Taken(schema, data, t, values) == State(t.offset + |Content(f)|, Entered(schema, f, values))
  {
    if Knows(schema, t.field, t.wireType) {
      if f.Fixed? {
        Fixed32RoundTrip(data, t.offset, f.value, Get(values, t.field));
      } else if f.Scalar? {
        VarintRoundTrip(data, t.offset, f.value);
      }
    } else {
      FieldSkipped(data, t.offset, f);
    }
  }

  lemma FieldDecoded(schema: Schema, data: seq<Byte>, s: State, f: Field)
    requires Scalars(schema) && WellFormed(f) && At(data, s.offset, Encoding(f)) && |data| < UINT32
    ensures Turn(schema, data, s) == Some(State(s.offset + |Encoding(f)|, Entered(schema, f, s.values)))
  {
    hide Tag, Content, Taken, ReadTag;
    var tag := Tag(f.number, WireType(f));
    AtSplit(data, s.offset, tag, Content(f));
    TagRoundTrip(data, s.offset, f.number, WireType(f));
    ContentTaken(schema, data, ReadTag(data, s.offset), s.values, f);
  }

  /** A buffer that holds a list of well-formed fields decodes to what the list says. */
  lemma {:induction false} FieldsDecoded(schema: Schema, data: seq<Byte>, s: State, fields: seq<Field>)
    requires Scalars(schema) && |data| < UINT32
    requires forall f :: f in fields ==> WellFormed(f)
    requires At(data, s.offset, Message(fields)) && s.offset + |Message(fields)| == |data|
    ensures Decode(schema, data, s) == Some(Collect(schema, fields, s.values))
    decreases |fields|
  {
    if fields == [] {
    } else {
      var f := fields[0];
      AtSplit(data, s.offset, Encoding(f), Message(fields[1..]));
      FieldDecoded(schema, data, s, f);
      var next := Turn(schema, data, s).value;
      assert Encoding(f) != [];
      FieldsDecoded(schema, data, next, fields[1..]);
    }
  }

  /** Well-formed fields never lead back, whatever their values. */
  lemma {:induction false} FieldsLeadOn(schema: Schema, data: seq<Byte>, s: State, fields: seq<Field>)
    requires Scalars(schema) && |data| < UINT32
    requires forall f :: f in fields ==> WellFormed(f)
    requires At(data, s.offset, Message(fields)) && s.offset + |Message(fields)| == |data|
    ensures NeverGoesBack(schema, data, s)
    decreases |fields|
  {
    hide GoesBack, Turn, Encoding, Entered;
    if fields == [] {
    } else {
      var f := fields[0];
      AtSplit(data, s.offset, Encoding(f), Message(fields[1..]));
      FieldDecoded(schema, data, s, f);
      FieldLeadsOn(schema, data, s, f);
      FieldsLeadOn(schema, data, Turn(schema, data, s).value, fields[1..]);
    }
  }

  lemma FieldLeadsOn(schema: Schema, data: seq<Byte>, s: State, f: Field)
    requires WellFormed(f) && At(data, s.offset, Encoding(f)) && |data| < UINT32
    ensures !GoesBack(schema, data, s)
  {
    FieldRoundTrip(data, s.offset, f);
  }

  function Known(schema: Schema, fields: seq<Field>): seq<Field> {
    if fields == [] then []
    else if Knows(schema, fields[0].number, WireType(fields[0])) then [fields[0]] + Known(schema, fields[1..])
    else Known(schema, fields[1..])
  }

  lemma {:induction false} UnknownIgnored(schema: Schema, fields: seq<Field>, values: map<nat, nat>)
    ensures Collect(schema, fields, values) == Collect(schema, Known(schema, fields), values)
    decreases |fields|
  {
    if fields == [] {
    } else if Knows(schema, fields[0].number, WireType(fields[0])) {
      UnknownIgnored(schema, fields[1..], values[fields[0].number := Value(fields[0])]);
      assert Known(schema, fields)[1..] == Known(schema, fields[1..]);
    } else {
      UnknownIgnored(schema, fields[1..], values);
    }
  }

  /** Forward compatibility: two messages that agree on the fields a handler knows decode alike,
      wherever and however often other fields of wire types 0, 1, 2 and 5 occur in them. */
  lemma ForwardCompatible(schema: Schema, plain: seq<Field>, extended: seq<Field>)
    requires Scalars(schema) && Known(schema, plain) == Known(schema, extended)
    requires forall f :: f in plain || f in extended ==> WellFormed(f)
    requires |Message(plain)| < UINT32 && |Message(extended)| < UINT32
    ensures Decode(schema, Message(plain), State(0, map[])) == Decode(schema, Message(extended), State(0, map[]))
  {
    FieldsDecoded(schema, Message(plain), State(0, map[]), plain);
    FieldsDecoded(schema, Message(extended), State(0, map[]), extended);
    UnknownIgnored(schema, plain, map[]);
    UnknownIgnored(schema, extended, map[]);
  }

  /** The value of a known field is the one given last. */
  lemma {:induction false} LastValueWins(schema: Schema, fields: seq<Field>, k: nat, values: map<nat, nat>)
    requires k < |fields| && Knows(schema, fields[k].number, WireType(fields[k]))
    requires forall i :: k < i < |fields| ==>
      !(fields[i].number == fields[k].number && Knows(schema, fields[i].number, WireType(fields[i])))
    ensures Get(Collect(schema, fields, values), fields[k].number) == Value(fields[k])
    decreases |fields|
  {
    var next := Entered(schema, fields[0], values);
    if k > 0 {
      LastValueWins(schema, fields[1..], k - 1, next);
    } else {
      Untouched(schema, fields[1..], fields[0].number, next);
    }
  }

  lemma {:induction false} Untouched(schema: Schema, fields: seq<Field>, number: nat, values: map<nat, nat>)
    requires forall i :: 0 <= i < |fields| ==>
      !(fields[i].number == number && Knows(schema, fields[i].number, WireType(fields[i])))
    ensures Get(Collect(schema, fields, values), number) == Get(values, number)
    decreases |fields|
  {
    if fields == [] {
    } else {
      Untouched(schema, fields[1..], number, Entered(schema, fields[0], values));
    }
  }

  // ---------------------------------------------------------------- what a list of fields says

  /** The value of the last scalar field with this number, if any. */
  function LastScalar(fields: seq<Field>, number: nat, before: nat): nat {
    if fields == [] then before
    else
      var f := fields[0];
      LastScalar(fields[1..], number, if f.Scalar? && f.number == number then f.value else before)
  }

  /** The same for fields of 32 bits. */
  function LastFixed(fields: seq<Field>, number: nat, before: nat): nat {
    if fields == [] then before
    else
      var f := fields[0];
      LastFixed(fields[1..], number, if f.Fixed? && f.number == number then f.value else before)
  }

  lemma {:induction false} ScalarCollected(schema: Schema, fields: seq<Field>, number: nat, values: map<nat, nat>)
    requires number in schema && schema[number] == 0
    ensures Get(Collect(schema, fields, values), number) == LastScalar(fields, number, Get(values, number))
    decreases |fields|
  {
    if fields != [] {
      ScalarCollected(schema, fields[1..], number, Entered(schema, fields[0], values));
    }
  }

  lemma {:induction false} FixedCollected(schema: Schema, fields: seq<Field>, number: nat, values: map<nat, nat>)
    requires number in schema && schema[number] == 5
    ensures Get(Collect(schema, fields, values), number) == LastFixed(fields, number, Get(values, number))
    decreases |fields|
  {
    if fields != [] {
      FixedCollected(schema, fields[1..], number, Entered(schema, fields[0], values));
    }
  }
}
