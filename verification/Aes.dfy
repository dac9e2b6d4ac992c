/** The AES-128 block cipher as FIPS 197 defines it, and the inverse cipher of its section 5.3, which
    undoes it. */
module Aes {
  import opened GaloisField
  import opened SubstitutionBox

  const RCON: seq<bv8> := [0x8d, 0x01, 0x02, 0x04, 0x08, 0x10, 0x20, 0x40, 0x80, 0x1b, 0x36]

  // A state is its 16 bytes column by column: row r of column c is byte 4 * c + r.
  type Block = s: seq<bv8> | |s| == 16 witness seq(16, _ => 0)
  type Schedule = w: seq<bv8> | |w| == 176 witness seq(176, _ => 0)

  // ---------------------------------------------------------------- FIPS 197, section 5.1

  function Substituted(box: bv8 -> bv8, s: Block): (r: Block) {
    seq(16, i requires 0 <= i < 16 => box(s[i]))
  }

  function Column(s: seq<bv8>, c: nat): Word
    requires 4 * c + 4 <= |s|
  {
    Word(s[4 * c], s[4 * c + 1], s[4 * c + 2], s[4 * c + 3])
  }

  function Flat(w: Word): (s: seq<bv8>)
    ensures |s| == 4
  {
    [w.b0, w.b1, w.b2, w.b3]
  }

  function Joined(c0: Word, c1: Word, c2: Word, c3: Word): (r: Block) {
    Flat(c0) + Flat(c1) + Flat(c2) + Flat(c3)
  }

  /** ShiftRows, section 5.1.2: row r turns left by r columns. */
  function ShiftedColumn(s: Block, c: nat): Word
    requires c < 4
  {
    Word(s[4 * c], s[4 * ((c + 1) % 4) + 1], s[4 * ((c + 2) % 4) + 2], s[4 * ((c + 3) % 4) + 3])
  }

  function ShiftedRows(s: Block): (r: Block) {
    Joined(ShiftedColumn(s, 0), ShiftedColumn(s, 1), ShiftedColumn(s, 2), ShiftedColumn(s, 3))
  }

  /** InvShiftRows, section 5.3.1: row r turns right by r columns. */
  function UnshiftedColumn(s: Block, c: nat): Word
    requires c < 4
  {
    Word(s[4 * c], s[4 * ((c + 3) % 4) + 1], s[4 * ((c + 2) % 4) + 2], s[4 * ((c + 1) % 4) + 3])
  }

  function UnshiftedRows(s: Block): (r: Block) {
    Joined(UnshiftedColumn(s, 0), UnshiftedColumn(s, 1), UnshiftedColumn(s, 2), UnshiftedColumn(s, 3))
  }

  /** MixColumns, section 5.1.3, and with UnmixColumn its inverse, section 5.3.3. */
  function Mixed(f: Word -> Word, s: Block): (r: Block) {
    Joined(f(Column(s, 0)), f(Column(s, 1)), f(Column(s, 2)), f(Column(s, 3)))
  }

  function MixColumn(c: Word): Word {
    Product(MIX, c)
  }

  function UnmixColumn(c: Word): Word {
    Product(UNMIX, c)
  }

  /** AddRoundKey, section 5.1.4. */
  function RoundKeyAdded(s: Block, w: Schedule, round: nat): (r: Block)
    requires round <= 10
  {
    seq(16, i requires 0 <= i < 16 => Add(s[i], w[16 * round + i]))
  }

  /** A full round, and what section 5.3 does to undo it. */
  function Round(s: Block, w: Schedule, n: nat): (r: Block)
    requires n <= 10
  {
    RoundKeyAdded(Mixed(MixColumn, ShiftedRows(Substituted(Sbox, s))), w, n)
  }

  function UndoneRound(s: Block, w: Schedule, n: nat): (r: Block)
    requires n <= 10
  {
    Substituted(InvSbox, UnshiftedRows(Mixed(UnmixColumn, RoundKeyAdded(s, w, n))))
  }

  /** The state after the initial key addition and `n` full rounds. */
  function Rounds(s: Block, w: Schedule, n: nat): (r: Block)
    requires n <= 9
  {
    if n == 0 then RoundKeyAdded(s, w, 0) else Round(Rounds(s, w, n - 1), w, n)
  }

  /** The last round mixes no columns. */
  function LastRound(s: Block, w: Schedule): (r: Block) {
    RoundKeyAdded(ShiftedRows(Substituted(Sbox, s)), w, 10)
  }

  function Encrypted(s: Block, w: Schedule): (r: Block) {
    LastRound(Rounds(s, w, 9), w)
  }

  /** The inverse cipher, section 5.3: rounds n, n - 1, ..., 1 and the initial key addition. */
  function UndoneRounds(s: Block, w: Schedule, n: nat): (r: Block)
    requires n <= 9
    decreases n
  {
    if n == 0 then RoundKeyAdded(s, w, 0) else UndoneRounds(UndoneRound(s, w, n), w, n - 1)
  }

  function UndoneLastRound(s: Block, w: Schedule): (r: Block) {
    Substituted(InvSbox, UnshiftedRows(RoundKeyAdded(s, w, 10)))
  }

  function Decrypted(s: Block, w: Schedule): (r: Block) {
    UndoneRounds(UndoneLastRound(s, w), w, 9)
  }

  // ---------------------------------------------------------------- FIPS 197, section 5.2

  /** x to the power n in GF(2^8). */
  function Power(n: nat): bv8 {
    if n == 0 then 1 else Xtime(Power(n - 1))
  }

  function SubWord(w: Word): Word {
    Word(Sbox(w.b0), Sbox(w.b1), Sbox(w.b2), Sbox(w.b3))
  }

  /** What word `i` adds to the word four before it, given the word just before it. */
  function Scheduled(before: Word, i: nat): Word
    requires i >= 4
  {
    if i % 4 == 0 then AddWords(SubWord(Turned(before)), Word(Power(i / 4 - 1), 0, 0, 0)) else before
  }

  function KeyWord(key: Block, i: nat): Word {
    if i < 4 then Column(key, i) else AddWords(KeyWord(key, i - 4), Scheduled(KeyWord(key, i - 1), i))
  }

  function KeyWords(key: Block, n: nat): (w: seq<bv8>)
    ensures |w| == 4 * n
  {
    if n == 0 then [] else KeyWords(key, n - 1) + Flat(KeyWord(key, n - 1))
  }

  function Expanded(key: Block): Schedule {
    KeyWords(key, 44)
  }

  /** One block under one key. */
  function Cipher(key: Block, s: Block): Block {
    Encrypted(s, Expanded(key))
  }

  // ---------------------------------------------------------------- the cipher is undone

  lemma UndoSubstitution(box: bv8 -> bv8, inverse: bv8 -> bv8, s: Block)
    requires forall x :: inverse(box(x)) == x
    ensures Substituted(inverse, Substituted(box, s)) == s
  {
    forall i | 0 <= i < 16
      ensures Substituted(inverse, Substituted(box, s))[i] == s[i]
    {
      assert inverse(box(s[i])) == s[i];
    }
  }

  lemma SubstitutionUndone(s: Block)
    ensures Substituted(InvSbox, Substituted(Sbox, s)) == s
    ensures Substituted(Sbox, Substituted(InvSbox, s)) == s
  {
    SboxBijective();
    UndoSubstitution(Sbox, InvSbox, s);
    UndoSubstitution(InvSbox, Sbox, s);
  }

  lemma JoinedColumns(c0: Word, c1: Word, c2: Word, c3: Word)
    ensures var s := Joined(c0, c1, c2, c3);
            Column(s, 0) == c0 && Column(s, 1) == c1 && Column(s, 2) == c2 && Column(s, 3) == c3
  {
  }

  lemma SameColumns(s: Block, t: Block)
    requires Column(s, 0) == Column(t, 0) && Column(s, 1) == Column(t, 1)
    requires Column(s, 2) == Column(t, 2) && Column(s, 3) == Column(t, 3)
    ensures s == t
  {
  }

  lemma ShiftUndone(s: Block)
    ensures UnshiftedRows(ShiftedRows(s)) == s && ShiftedRows(UnshiftedRows(s)) == s
  {
    var r, u := ShiftedRows(s), UnshiftedRows(s);
    ShiftedColumns(s);
    ShiftedColumns(u);
    UnshiftedColumns(s);
    UnshiftedColumns(r);
    SameColumns(UnshiftedRows(r), s);
    SameColumns(ShiftedRows(u), s);
  }

  lemma ShiftedColumns(s: Block)
    ensures var r := ShiftedRows(s);
            && Column(r, 0) == Word(s[0], s[5], s[10], s[15]) && Column(r, 1) == Word(s[4], s[9], s[14], s[3])
            && Column(r, 2) == Word(s[8], s[13], s[2], s[7]) && Column(r, 3) == Word(s[12], s[1], s[6], s[11])
  {
    JoinedColumns(ShiftedColumn(s, 0), ShiftedColumn(s, 1), ShiftedColumn(s, 2), ShiftedColumn(s, 3));
  }

  lemma UnshiftedColumns(s: Block)
    ensures var r := UnshiftedRows(s);
            && Column(r, 0) == Word(s[0], s[13], s[10], s[7]) && Column(r, 1) == Word(s[4], s[1], s[14], s[11])
            && Column(r, 2) == Word(s[8], s[5], s[2], s[15]) && Column(r, 3) == Word(s[12], s[9], s[6], s[3])
  {
    JoinedColumns(UnshiftedColumn(s, 0), UnshiftedColumn(s, 1), UnshiftedColumn(s, 2), UnshiftedColumn(s, 3));
  }

  lemma MixedColumn(f: Word -> Word, s: Block, c: nat)
    requires c < 4
    ensures Column(Mixed(f, s), c) == f(Column(s, c))
  {
    JoinedColumns(f(Column(s, 0)), f(Column(s, 1)), f(Column(s, 2)), f(Column(s, 3)));
  }

  lemma UndoMix(f: Word -> Word, inverse: Word -> Word, s: Block)
    requires forall c :: inverse(f(c)) == c
    ensures Mixed(inverse, Mixed(f, s)) == s
  {
    forall c | 0 <= c < 4
      ensures Column(Mixed(inverse, Mixed(f, s)), c) == Column(s, c)
    {
      MixedColumn(inverse, Mixed(f, s), c);
      MixedColumn(f, s, c);
      assert inverse(f(Column(s, c))) == Column(s, c);
    }
    SameColumns(Mixed(inverse, Mixed(f, s)), s);
  }

  lemma RoundKeyUndone(s: Block, w: Schedule, round: nat)
    requires round <= 10
    ensures RoundKeyAdded(RoundKeyAdded(s, w, round), w, round) == s
  {
    forall i | 0 <= i < 16
      ensures RoundKeyAdded(RoundKeyAdded(s, w, round), w, round)[i] == s[i]
    {
      AddTwice(s[i], w[16 * round + i]);
    }
  }

  lemma AddTwice(a: bv8, b: bv8)
    ensures Add(Add(a, b), b) == a
  {
  }

  lemma MixedUndone(s: Block)
    ensures Mixed(UnmixColumn, Mixed(MixColumn, s)) == s && Mixed(MixColumn, Mixed(UnmixColumn, s)) == s
  {
    forall c
      ensures UnmixColumn(MixColumn(c)) == c && MixColumn(UnmixColumn(c)) == c
    {
      MixUndone(c);
    }
    UndoMix(MixColumn, UnmixColumn, s);
    UndoMix(UnmixColumn, MixColumn, s);
  }

  lemma RoundUndone(s: Block, w: Schedule, n: nat)
    requires n <= 10
    ensures UndoneRound(Round(s, w, n), w, n) == s
  {
    var a := Substituted(Sbox, s);
    var b := ShiftedRows(a);
    var c := Mixed(MixColumn, b);
    RoundKeyUndone(c, w, n);
    MixedUndone(b);
    ShiftUndone(a);
    SubstitutionUndone(s);
  }

  lemma RoundRedone(s: Block, w: Schedule, n: nat)
    requires n <= 10
    ensures Round(UndoneRound(s, w, n), w, n) == s
  {
    var c := RoundKeyAdded(s, w, n);
    var b := Mixed(UnmixColumn, c);
    var a := UnshiftedRows(b);
    SubstitutionUndone(a);
    ShiftUndone(b);
    MixedUndone(c);
    RoundKeyUndone(s, w, n);
  }

  lemma OuterRoundUndone(s: Block, w: Schedule, n: nat)
    requires 1 <= n <= 9
    ensures UndoneRounds(Rounds(s, w, n), w, n) == UndoneRounds(Rounds(s, w, n - 1), w, n - 1)
  {
    RoundUndone(Rounds(s, w, n - 1), w, n);
  }

  lemma {:induction false} RoundsUndone(s: Block, w: Schedule, n: nat)
    requires n <= 9
    ensures UndoneRounds(Rounds(s, w, n), w, n) == s
  {
    if n == 0 {
      RoundKeyUndone(s, w, n);
    } else {
      RoundsUndone(s, w, n - 1);
      OuterRoundUndone(s, w, n);
    }
  }

  lemma {:induction false} RoundsRedone(s: Block, w: Schedule, n: nat)
    requires n <= 9
    ensures Rounds(UndoneRounds(s, w, n), w, n) == s
    decreases n
  {
    if n == 0 {
      RoundKeyUndone(s, w, 0);
    } else {
      RoundsRedone(UndoneRound(s, w, n), w, n - 1);
      RoundRedone(s, w, n);
    }
  }

  lemma LastRoundUndone(s: Block, w: Schedule, last: nat)
    requires last == 10
    ensures UndoneLastRound(LastRound(s, w), w) == s && LastRound(UndoneLastRound(s, w), w) == s
  {
    var a := Substituted(Sbox, s);
    RoundKeyUndone(ShiftedRows(a), w, last);
    ShiftUndone(a);
    SubstitutionUndone(s);
    var b := RoundKeyAdded(s, w, last);
    SubstitutionUndone(UnshiftedRows(b));
    ShiftUndone(b);
    RoundKeyUndone(s, w, last);
  }

  lemma EncryptionUndone(s: Block, w: Schedule, n: nat)
    requires n <= 9
    ensures UndoneRounds(UndoneLastRound(LastRound(Rounds(s, w, n), w), w), w, n) == s
    ensures LastRound(Rounds(UndoneRounds(UndoneLastRound(s, w), w, n), w, n), w) == s
  {
    LastRoundUndone(Rounds(s, w, n), w, 10);
    RoundsUndone(s, w, n);
    LastRoundUndone(s, w, 10);
    RoundsRedone(UndoneLastRound(s, w), w, n);
  }

  lemma Unfolded(s: Block, w: Schedule)
    ensures Encrypted(s, w) == LastRound(Rounds(s, w, 9), w)
    ensures Decrypted(s, w) == UndoneRounds(UndoneLastRound(s, w), w, 9)
  {
    hide Rounds, UndoneRounds, LastRound, UndoneLastRound;
  }

  /** The cipher is a bijection on blocks, whatever the round keys: the inverse cipher of section 5.3
      undoes it, on either side. */
  lemma CipherUndone(s: Block, w: Schedule)
    ensures Decrypted(Encrypted(s, w), w) == s
    ensures Encrypted(Decrypted(s, w), w) == s
  {
    hide *;
    EncryptionUndone(s, w, 9);
    Unfolded(s, w);
    Unfolded(Encrypted(s, w), w);
    Unfolded(Decrypted(s, w), w);
  }

  /** Under one key, different blocks have different images. */
  lemma CipherInjective(key: Block, s: Block, t: Block)
    requires s != t
    ensures Cipher(key, s) != Cipher(key, t)
  {
    CipherUndone(s, Expanded(key));
    CipherUndone(t, Expanded(key));
  }
}
