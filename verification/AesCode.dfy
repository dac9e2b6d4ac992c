/** The AES code as it runs: every step changes one 16-byte buffer in place, and the key schedule
    fills one 176-byte buffer. State[c][r] is byte 4 * c + r of the buffer. */
module AesCode {
  import opened GaloisField
  import opened SubstitutionBox
  import opened Aes

  method AddRoundKey(round: nat, state: array<bv8>, w: Aes.Schedule)
    requires state.Length == 16 && round <= 10
    modifies state
    ensures state[..] == RoundKeyAdded(old(state[..]), w, round)
  {
    for i := 0 to 4
      invariant forall k :: 0 <= k < 4 * i ==> state[k] == Add(old(state[k]), w[16 * round + k])
      invariant forall k :: 4 * i <= k < 16 ==> state[k] == old(state[k])
    {
      for j := 0 to 4
        invariant forall k :: 0 <= k < 4 * i + j ==> state[k] == Add(old(state[k]), w[16 * round + k])
        invariant forall k :: 4 * i + j <= k < 16 ==> state[k] == old(state[k])
      {
        state[4 * i + j] := Add(state[4 * i + j], w[round * 16 + i * 4 + j]);
      }
    }
  }

  method SubBytes(state: array<bv8>)
    requires state.Length == 16
    modifies state
    ensures state[..] == Substituted(Sbox, old(state[..]))
  {
    for i := 0 to 4
      invariant forall k :: 0 <= k < 16 ==> state[k] == if k % 4 < i then Sbox(old(state[k])) else old(state[k])
    {
      for j := 0 to 4
        invariant forall k :: 0 <= k < 16 ==>
          state[k] == if k % 4 < i || (k % 4 == i && k / 4 < j) then Sbox(old(state[k])) else old(state[k])
      {
        state[4 * j + i] := Sbox(state[4 * j + i]);
      }
    }
  }

  method ShiftRows(state: array<bv8>)
    requires state.Length == 16
    modifies state
    ensures state[..] == ShiftedRows(old(state[..]))
  {
    var temp := state[1];
    state[1] := state[5];
    state[5] := state[9];
    state[9] := state[13];
    state[13] := temp;

    temp := state[2];
    state[2] := state[10];
    state[10] := temp;
    temp := state[6];
    state[6] := state[14];
    state[14] := temp;

    temp := state[3];
    state[3] := state[15];
    state[15] := state[11];
    state[11] := state[7];
    state[7] := temp;
    ShiftedColumns(old(state[..]));
    SameColumns(state[..], ShiftedRows(old(state[..])));
  }

  /** One column, through the shared sum of its bytes. */
  function SharedSumColumn(c: Word): Word {
    var sum := Sum(c.b0, c.b1, c.b2, c.b3);
    Word(Add(c.b0, Add(Xtime(Add(c.b0, c.b1)), sum)),
         Add(c.b1, Add(Xtime(Add(c.b1, c.b2)), sum)),
         Add(c.b2, Add(Xtime(Add(c.b2, c.b3)), sum)),
         Add(c.b3, Add(Xtime(Add(c.b3, c.b0)), sum)))
  }

  lemma Cancel(a: bv8, y: bv8, r: bv8)
    ensures Add(a, Add(y, Add(a, r))) == Add(y, r)
  {
  }

  function Sum(a: bv8, b: bv8, c: bv8, d: bv8): bv8 {
    Add(Add(Add(a, b), c), d)
  }

  lemma SumTurned(a: bv8, b: bv8, c: bv8, d: bv8)
    ensures Sum(b, c, d, a) == Sum(a, b, c, d)
  {
    Associative(Add(a, b), c, d);
    Associative(Add(b, c), d, a);
    Turn(a, b, c, d);
    Commutative(Add(b, c), Add(d, a));
  }

  lemma SharedByte(c: Word)
    ensures Add(c.b0, Add(Xtime(Add(c.b0, c.b1)), Sum(c.b0, c.b1, c.b2, c.b3))) == Dot(MIX, c)
  {
    var rest := Add(c.b2, c.b3);
    MixRow(c);
    XtimeAdd(c.b0, c.b1);
    Associative(Add(c.b0, c.b1), c.b2, c.b3);
    Associative(c.b0, c.b1, rest);
    Cancel(c.b0, Add(Xtime(c.b0), Xtime(c.b1)), Add(c.b1, rest));
    Associative(Add(Xtime(c.b0), Xtime(c.b1)), c.b1, rest);
    Associative(Xtime(c.b0), Xtime(c.b1), c.b1);
  }

  /** The shared sum computes the matrix product of section 5.1.3 of FIPS 197. */
  lemma SharedSumIsProduct(c: Word)
    ensures SharedSumColumn(c) == MixColumn(c)
  {
    MixRows(c);
    SharedByte(c);
    SharedByte(Turned(c));
    SharedByte(Turned(Turned(c)));
    SharedByte(Turned(Turned(Turned(c))));
    SumTurned(c.b0, c.b1, c.b2, c.b3);
    SumTurned(c.b1, c.b2, c.b3, c.b0);
    SumTurned(c.b2, c.b3, c.b0, c.b1);
  }

  ghost predicate ColumnsMixed(f: Word -> Word, was: Block, s: Block, n: nat)
    requires n <= 4
  {
    && (forall c :: 0 <= c < n ==> Column(s, c) == f(Column(was, c)))
    && (forall c :: n <= c < 4 ==> Column(s, c) == Column(was, c))
  }

  lemma AllColumnsMixed(f: Word -> Word, was: Block, s: Block)
    requires ColumnsMixed(f, was, s, 4)
    ensures s == Mixed(f, was)
  {
    JoinedColumns(f(Column(was, 0)), f(Column(was, 1)), f(Column(was, 2)), f(Column(was, 3)));
    SameColumns(s, Mixed(f, was));
  }

  /** The body of the loop of MixColumns. */
  method MixOne(state: array<bv8>, i: nat)
    requires state.Length == 16 && i < 4
    modifies state
    ensures Column(state[..], i) == SharedSumColumn(old(Column(state[..], i)))
    ensures forall c :: 0 <= c < 4 && c != i ==> Column(state[..], c) == old(Column(state[..], c))
  {
    var t := state[4 * i];
    var sum := Sum(state[4 * i], state[4 * i + 1], state[4 * i + 2], state[4 * i + 3]);
    var m := Xtime(Add(state[4 * i], state[4 * i + 1]));
    state[4 * i] := Add(state[4 * i], Add(m, sum));
    m := Xtime(Add(state[4 * i + 1], state[4 * i + 2]));
    state[4 * i + 1] := Add(state[4 * i + 1], Add(m, sum));
    m := Xtime(Add(state[4 * i + 2], state[4 * i + 3]));
    state[4 * i + 2] := Add(state[4 * i + 2], Add(m, sum));
    m := Xtime(Add(state[4 * i + 3], t));
    state[4 * i + 3] := Add(state[4 * i + 3], Add(m, sum));
  }

  lemma MixStep(f: Word -> Word, was: Block, before: Block, after: Block, i: nat)
    requires i < 4 && ColumnsMixed(f, was, before, i)
    requires Column(after, i) == f(Column(before, i))
    requires forall c :: 0 <= c < 4 && c != i ==> Column(after, c) == Column(before, c)
    ensures ColumnsMixed(f, was, after, i + 1)
  {
  }

  method MixColumns(state: array<bv8>)
    requires state.Length == 16
    modifies state
    ensures state[..] == Mixed(MixColumn, old(state[..]))
  {
    for i := 0 to 4
      invariant ColumnsMixed(MixColumn, old(state[..]), state[..], i)
    {
      ghost var before := state[..];
      MixOne(state, i);
      SharedSumIsProduct(Column(before, i));
      MixStep(MixColumn, old(state[..]), before, state[..], i);
    }
    AllColumnsMixed(MixColumn, old(state[..]), state[..]);
  }

  /** The first `n` words of a buffer are the first words of the key schedule of section 5.2. */
  ghost predicate WordsExpanded(w: seq<bv8>, key: Block, n: nat)
    requires 4 * n <= |w|
  {
    forall i :: 0 <= i < n ==> Column(w, i) == KeyWord(key, i)
  }

  lemma {:induction false} ExpandedPrefix(w: seq<bv8>, key: Block, n: nat)
    requires 4 * n <= |w| && WordsExpanded(w, key, n)
    ensures w[..4 * n] == KeyWords(key, n)
  {
    if n == 0 {
    } else {
      ExpandedPrefix(w, key, n - 1);
      assert Column(w, n - 1) == KeyWord(key, n - 1);
      assert w[..4 * n] == w[..4 * (n - 1)] + Flat(Column(w, n - 1));
    }
  }

  /** The table of round constants holds the powers of x. */
  lemma RconIsPower(i: nat)
    requires 1 <= i <= 10
    ensures RCON[i] == Power(i - 1)
  {
    PowersUpTo4();
    PowersUpTo9();
  }

  lemma PowersUpTo4()
    ensures Power(0) == 0x01 && Power(1) == 0x02 && Power(2) == 0x04 && Power(3) == 0x08 && Power(4) == 0x10
  {
  }

  lemma PowersUpTo9()
    ensures Power(5) == 0x20 && Power(6) == 0x40 && Power(7) == 0x80 && Power(8) == 0x1b && Power(9) == 0x36
  {
  }

  /** RotWord, SubWord and the round constant, applied to the four bytes of tempa. */
  method Schedule(before: Word, i: nat) returns (t: Word)
    requires 4 <= i < 44
    ensures t == Scheduled(before, i)
  {
    var t0, t1, t2, t3 := before.b0, before.b1, before.b2, before.b3;
    if i % 4 == 0 {
      t0, t1, t2, t3 := t1, t2, t3, t0;
      t0, t1, t2, t3 := Sbox(t0), Sbox(t1), Sbox(t2), Sbox(t3);
      RconIsPower(i / 4);
      t0 := Add(t0, RCON[i / 4]);
      Zeros(Word(t0, t1, t2, t3));
    }
    t := Word(t0, t1, t2, t3);
  }

  lemma Zeros(w: Word)
    ensures Add(w.b1, 0) == w.b1 && Add(w.b2, 0) == w.b2 && Add(w.b3, 0) == w.b3
  {
    Zero(w.b1);
    Zero(w.b2);
    Zero(w.b3);
  }

  /** One turn of the second loop of KeyExpansion. */
  method ExpandWord(roundKey: array<bv8>, i: nat)
    requires roundKey.Length == 176 && 4 <= i < 44
    modifies roundKey
    ensures Column(roundKey[..], i) ==
      AddWords(old(Column(roundKey[..], i - 4)), Scheduled(old(Column(roundKey[..], i - 1)), i))
    ensures forall c :: 0 <= c < i ==> Column(roundKey[..], c) == old(Column(roundKey[..], c))
  {
    var k := (i - 1) * 4;
    var t := Schedule(Word(roundKey[k], roundKey[k + 1], roundKey[k + 2], roundKey[k + 3]), i);
    var j := i * 4;
    k := (i - 4) * 4;
    roundKey[j] := Add(roundKey[k], t.b0);
    roundKey[j + 1] := Add(roundKey[k + 1], t.b1);
    roundKey[j + 2] := Add(roundKey[k + 2], t.b2);
    roundKey[j + 3] := Add(roundKey[k + 3], t.b3);
  }

  lemma ExpandStep(key: Block, before: seq<bv8>, after: seq<bv8>, i: nat)
    requires 4 <= i && 4 * i + 4 <= |before| == |after| && WordsExpanded(before, key, i)
    requires Column(after, i) == AddWords(Column(before, i - 4), Scheduled(Column(before, i - 1), i))
    requires forall c :: 0 <= c < i ==> Column(after, c) == Column(before, c)
    ensures WordsExpanded(after, key, i + 1)
  {
    assert Column(after, i) == KeyWord(key, i);
  }

  method KeyExpansion(roundKey: array<bv8>, key: array<bv8>)
    requires roundKey.Length == 176 && key.Length == 16 && roundKey != key
    modifies roundKey
    ensures roundKey[..] == Expanded(key[..])
  {
    for i := 0 to 4
      invariant forall k :: 0 <= k < 4 * i ==> roundKey[k] == key[k]
    {
      roundKey[i * 4 + 0] := key[i * 4 + 0];
      roundKey[i * 4 + 1] := key[i * 4 + 1];
      roundKey[i * 4 + 2] := key[i * 4 + 2];
      roundKey[i * 4 + 3] := key[i * 4 + 3];
    }
    for i := 4 to 44
      invariant key[..] == old(key[..]) && WordsExpanded(roundKey[..], key[..], i)
    {
      ghost var before := roundKey[..];
      ExpandWord(roundKey, i);
      ExpandStep(key[..], before, roundKey[..], i);
    }
    ExpandedPrefix(roundKey[..], key[..], 44);
  }

  lemma NoRounds(s: Block, w: Aes.Schedule)
    ensures Rounds(s, w, 0) == RoundKeyAdded(s, w, 0)
  {
  }

  lemma NextRound(s: Block, w: Aes.Schedule, n: nat)
    requires 1 <= n <= 9
    ensures Rounds(s, w, n) ==
      RoundKeyAdded(Mixed(MixColumn, ShiftedRows(Substituted(Sbox, Rounds(s, w, n - 1)))), w, n)
  {
  }

  lemma FinalRound(s: Block, w: Aes.Schedule, n: nat)
    requires n == 9
    ensures Encrypted(s, w) == RoundKeyAdded(ShiftedRows(Substituted(Sbox, Rounds(s, w, n))), w, n + 1)
  {
    hide Rounds, Substituted, ShiftedRows, RoundKeyAdded;
    Unfolded(s, w);
  }

  method EncryptRounds(state: array<bv8>, w: Aes.Schedule)
    requires state.Length == 16
    modifies state
    ensures state[..] == Encrypted(old(state[..]), w)
  {
    hide *;
    ghost var s := state[..];
    NoRounds(s, w);
    var round := 0;
    AddRoundKey(round, state, w);
    round := 1;
    while true
      invariant 1 <= round <= 10 && state[..] == Rounds(s, w, round - 1)
      decreases 10 - round
    {
      SubBytes(state);
      ShiftRows(state);
      if round == 10 {
        break;
      }
      MixColumns(state);
      AddRoundKey(round, state, w);
      NextRound(s, w, round);
      round := round + 1;
    }
    AddRoundKey(round, state, w);
    FinalRound(s, w, round - 1);
  }

  /** AES_init_ctx followed by AES_ECB_encrypt. */
  method EcbEncrypt(key: array<bv8>, buf: array<bv8>)
    requires key.Length == 16 && buf.Length == 16 && key != buf
    modifies buf
    ensures buf[..] == Cipher(old(key[..]), old(buf[..]))
  {
    hide Encrypted, Expanded;
    var roundKey := new bv8[176];
    KeyExpansion(roundKey, key);
    ghost var w := roundKey[..];
    EncryptRounds(buf, roundKey[..]);
    assert buf[..] == Encrypted(old(buf[..]), w);
  }
}
