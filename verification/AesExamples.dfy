/** The worked examples of FIPS 197: the key expansion of appendix A.1 and the cipher of appendix B. */
module AesExamples {
  import opened GaloisField
  import opened SubstitutionBox
  import opened Aes
  import opened AesCode

  /** The columns of a state, or the words of a round key. */
  datatype Quad = Quad(c0: Word, c1: Word, c2: Word, c3: Word)

  // ---------------------------------------------------------------- appendix A.1

  const KEY: Block :=
    [0x2b, 0x7e, 0x15, 0x16, 0x28, 0xae, 0xd2, 0xa6, 0xab, 0xf7, 0x15, 0x88, 0x09, 0xcf, 0x4f, 0x3c]

  const K0: Quad :=
    Quad(Word(0x2b, 0x7e, 0x15, 0x16), Word(0x28, 0xae, 0xd2, 0xa6),
       Word(0xab, 0xf7, 0x15, 0x88), Word(0x09, 0xcf, 0x4f, 0x3c))
  const K1: Quad :=
    Quad(Word(0xa0, 0xfa, 0xfe, 0x17), Word(0x88, 0x54, 0x2c, 0xb1),
       Word(0x23, 0xa3, 0x39, 0x39), Word(0x2a, 0x6c, 0x76, 0x05))
  const K2: Quad :=
    Quad(Word(0xf2, 0xc2, 0x95, 0xf2), Word(0x7a, 0x96, 0xb9, 0x43),
       Word(0x59, 0x35, 0x80, 0x7a), Word(0x73, 0x59, 0xf6, 0x7f))
  const K3: Quad :=
    Quad(Word(0x3d, 0x80, 0x47, 0x7d), Word(0x47, 0x16, 0xfe, 0x3e),
       Word(0x1e, 0x23, 0x7e, 0x44), Word(0x6d, 0x7a, 0x88, 0x3b))
  const K4: Quad :=
    Quad(Word(0xef, 0x44, 0xa5, 0x41), Word(0xa8, 0x52, 0x5b, 0x7f),
       Word(0xb6, 0x71, 0x25, 0x3b), Word(0xdb, 0x0b, 0xad, 0x00))
  const K5: Quad :=
    Quad(Word(0xd4, 0xd1, 0xc6, 0xf8), Word(0x7c, 0x83, 0x9d, 0x87),
       Word(0xca, 0xf2, 0xb8, 0xbc), Word(0x11, 0xf9, 0x15, 0xbc))
  const K6: Quad :=
    Quad(Word(0x6d, 0x88, 0xa3, 0x7a), Word(0x11, 0x0b, 0x3e, 0xfd),
       Word(0xdb, 0xf9, 0x86, 0x41), Word(0xca, 0x00, 0x93, 0xfd))
  const K7: Quad :=
    Quad(Word(0x4e, 0x54, 0xf7, 0x0e), Word(0x5f, 0x5f, 0xc9, 0xf3),
       Word(0x84, 0xa6, 0x4f, 0xb2), Word(0x4e, 0xa6, 0xdc, 0x4f))
  const K8: Quad :=
    Quad(Word(0xea, 0xd2, 0x73, 0x21), Word(0xb5, 0x8d, 0xba, 0xd2),
       Word(0x31, 0x2b, 0xf5, 0x60), Word(0x7f, 0x8d, 0x29, 0x2f))
  const K9: Quad :=
    Quad(Word(0xac, 0x77, 0x66, 0xf3), Word(0x19, 0xfa, 0xdc, 0x21),
       Word(0x28, 0xd1, 0x29, 0x41), Word(0x57, 0x5c, 0x00, 0x6e))
  const K10: Quad :=
    Quad(Word(0xd0, 0x14, 0xf9, 0xa8), Word(0xc9, 0xee, 0x25, 0x89),
       Word(0xe1, 0x3f, 0x0c, 0xc8), Word(0xb6, 0x63, 0x0c, 0xa6))

  lemma NextWord(i: nat, first: Word, before: Word, word: Word)
    requires i >= 4 && KeyWord(KEY, i - 4) == first && KeyWord(KEY, i - 1) == before
    requires word == AddWords(first, Scheduled(before, i))
    ensures KeyWord(KEY, i) == word
  {
  }

  /** The words of round key `r`. */
  ghost predicate RoundKey(r: nat, k: Quad) {
    && KeyWord(KEY, 4 * r) == k.c0 && KeyWord(KEY, 4 * r + 1) == k.c1
    && KeyWord(KEY, 4 * r + 2) == k.c2 && KeyWord(KEY, 4 * r + 3) == k.c3
  }

  lemma NextRoundKey(r: nat, power: bv8, j: Quad, k: Quad)
    requires RoundKey(r, j) && Power(r) == power
    requires k.c0 == AddWords(j.c0, AddWords(SubWord(Turned(j.c3)), Word(power, 0, 0, 0)))
    requires k.c1 == AddWords(j.c1, k.c0) && k.c2 == AddWords(j.c2, k.c1) && k.c3 == AddWords(j.c3, k.c2)
    ensures RoundKey(r + 1, k)
  {
    hide KeyWord, AddWords, SubWord, Power;
    assert (4 * r + 4) % 4 == 0 && (4 * r + 4) / 4 == r + 1;
    NextWord(4 * r + 4, j.c0, j.c3, k.c0);
    NextWord(4 * r + 5, j.c1, k.c0, k.c1);
    NextWord(4 * r + 6, j.c2, k.c1, k.c2);
    NextWord(4 * r + 7, j.c3, k.c2, k.c3);
  }

  lemma RoundKey0()
    ensures RoundKey(0, K0)
  {
  }

  lemma RoundKey1()
    ensures RoundKey(1, K1)
  {
    hide RoundKey;
    RoundKey0();
    RconIsPower(1);
    hide Power;
    NextRoundKey(0, 0x01, K0, K1);
  }

  lemma RoundKey2()
    ensures RoundKey(2, K2)
  {
    hide RoundKey;
    RoundKey1();
    RconIsPower(2);
    hide Power;
    NextRoundKey(1, 0x02, K1, K2);
  }

  lemma RoundKey3()
    ensures RoundKey(3, K3)
  {
    hide RoundKey;
    RoundKey2();
    RconIsPower(3);
    hide Power;
    NextRoundKey(2, 0x04, K2, K3);
  }

  lemma RoundKey4()
    ensures RoundKey(4, K4)
  {
    hide RoundKey;
    RoundKey3();
    RconIsPower(4);
    hide Power;
    NextRoundKey(3, 0x08, K3, K4);
  }

  lemma RoundKey5()
    ensures RoundKey(5, K5)
  {
    hide RoundKey;
    RoundKey4();
    RconIsPower(5);
    hide Power;
    NextRoundKey(4, 0x10, K4, K5);
  }

  lemma RoundKey6()
    ensures RoundKey(6, K6)
  {
    hide RoundKey;
    RoundKey5();
    RconIsPower(6);
    hide Power;
    NextRoundKey(5, 0x20, K5, K6);
  }

  lemma RoundKey7()
    ensures RoundKey(7, K7)
  {
    hide RoundKey;
    RoundKey6();
    RconIsPower(7);
    hide Power;
    NextRoundKey(6, 0x40, K6, K7);
  }

  lemma RoundKey8()
    ensures RoundKey(8, K8)
  {
    hide RoundKey;
    RoundKey7();
    RconIsPower(8);
    hide Power;
    NextRoundKey(7, 0x80, K7, K8);
  }

  lemma RoundKey9()
    ensures RoundKey(9, K9)
  {
    hide RoundKey;
    RoundKey8();
    RconIsPower(9);
    hide Power;
    NextRoundKey(8, 0x1b, K8, K9);
  }

  /** The key expansion of appendix A.1, up to the last round key. */
  lemma RoundKey10()
    ensures RoundKey(10, K10)
  {
    hide RoundKey;
    RoundKey9();
    RconIsPower(10);
    hide Power;
    NextRoundKey(9, 0x36, K9, K10);
  }

  // ---------------------------------------------------------------- appendix B

  const PLAIN: Block :=
    [0x32, 0x43, 0xf6, 0xa8, 0x88, 0x5a, 0x30, 0x8d, 0x31, 0x31, 0x98, 0xa2, 0xe0, 0x37, 0x07, 0x34]

  const S0: Quad :=
    Quad(Word(0x19, 0x3d, 0xe3, 0xbe), Word(0xa0, 0xf4, 0xe2, 0x2b),
       Word(0x9a, 0xc6, 0x8d, 0x2a), Word(0xe9, 0xf8, 0x48, 0x08))
  const S1: Quad :=
    Quad(Word(0xa4, 0x9c, 0x7f, 0xf2), Word(0x68, 0x9f, 0x35, 0x2b),
       Word(0x6b, 0x5b, 0xea, 0x43), Word(0x02, 0x6a, 0x50, 0x49))
  const S2: Quad :=
    Quad(Word(0xaa, 0x8f, 0x5f, 0x03), Word(0x61, 0xdd, 0xe3, 0xef),
       Word(0x82, 0xd2, 0x4a, 0xd2), Word(0x68, 0x32, 0x46, 0x9a))
  const S3: Quad :=
    Quad(Word(0x48, 0x6c, 0x4e, 0xee), Word(0x67, 0x1d, 0x9d, 0x0d),
       Word(0x4d, 0xe3, 0xb1, 0x38), Word(0xd6, 0x5f, 0x58, 0xe7))
  const S4: Quad :=
    Quad(Word(0xe0, 0x92, 0x7f, 0xe8), Word(0xc8, 0x63, 0x63, 0xc0),
       Word(0xd9, 0xb1, 0x35, 0x50), Word(0x85, 0xb8, 0xbe, 0x01))
  const S5: Quad :=
    Quad(Word(0xf1, 0x00, 0x6f, 0x55), Word(0xc1, 0x92, 0x4c, 0xef),
       Word(0x7c, 0xc8, 0x8b, 0x32), Word(0x5d, 0xb5, 0xd5, 0x0c))
  const S6: Quad :=
    Quad(Word(0x26, 0x0e, 0x2e, 0x17), Word(0x3d, 0x41, 0xb7, 0x7d),
       Word(0xe8, 0x64, 0x72, 0xa9), Word(0xfd, 0xd2, 0x8b, 0x25))
  const S7: Quad :=
    Quad(Word(0x5a, 0x41, 0x42, 0xb1), Word(0x19, 0x49, 0xdc, 0x1f),
       Word(0xa3, 0xe0, 0x19, 0x65), Word(0x7a, 0x8c, 0x04, 0x0c))
  const S8: Quad :=
    Quad(Word(0xea, 0x83, 0x5c, 0xf0), Word(0x04, 0x45, 0x33, 0x2d),
       Word(0x65, 0x5d, 0x98, 0xad), Word(0x85, 0x96, 0xb0, 0xc5))
  const S9: Quad :=
    Quad(Word(0xeb, 0x40, 0xf2, 0x1e), Word(0x59, 0x2e, 0x38, 0x84),
       Word(0x8b, 0xa1, 0x13, 0xe7), Word(0x1b, 0xc3, 0x42, 0xd2))

  lemma {:induction false} ScheduleHolds(key: Block, n: nat, i: nat)
    requires i < n
    ensures Column(KeyWords(key, n), i) == KeyWord(key, i)
    decreases n
  {
    hide KeyWord;
    var before, last := KeyWords(key, n - 1), Flat(KeyWord(key, n - 1));
    if i < n - 1 {
      ScheduleHolds(key, n - 1, i);
      assert Column(before + last, i) == Column(before, i);
    } else {
      assert Column(before + last, i) == Word(last[0], last[1], last[2], last[3]);
    }
  }

  lemma KeyOfRound(r: nat, k: Quad)
    requires r <= 10 && RoundKey(r, k)
    ensures var w := Expanded(KEY);
      Column(w, 4 * r) == k.c0 && Column(w, 4 * r + 1) == k.c1 && Column(w, 4 * r + 2) == k.c2 && Column(w, 4 * r + 3) == k.c3
  {
    hide KeyWord, KeyWords;
    ScheduleHolds(KEY, 44, 4 * r);
    ScheduleHolds(KEY, 44, 4 * r + 1);
    ScheduleHolds(KEY, 44, 4 * r + 2);
    ScheduleHolds(KEY, 44, 4 * r + 3);
  }

  function Bytes(q: Quad): (s: Block) {
    Joined(q.c0, q.c1, q.c2, q.c3)
  }

  function Summed(q: Quad, k: Quad): Quad {
    Quad(AddWords(q.c0, k.c0), AddWords(q.c1, k.c1), AddWords(q.c2, k.c2), AddWords(q.c3, k.c3))
  }

  lemma AddedColumn(s: Block, w: Schedule, n: nat, c: nat)
    requires n <= 10 && c < 4
    ensures Column(RoundKeyAdded(s, w, n), c) == AddWords(Column(s, c), Column(w, 4 * n + c))
  {
  }

  lemma KeyAdded(q: Quad, k: Quad, n: nat)
    requires n <= 10 && RoundKey(n, k)
    ensures RoundKeyAdded(Bytes(q), Expanded(KEY), n) == Bytes(Summed(q, k))
  {
    hide RoundKeyAdded, Expanded, RoundKey, Column, AddWords, Joined;
    var w, r := Expanded(KEY), Summed(q, k);
    KeyOfRound(n, k);
    JoinedColumns(q.c0, q.c1, q.c2, q.c3);
    JoinedColumns(r.c0, r.c1, r.c2, r.c3);
    AddedColumn(Bytes(q), w, n, 0);
    AddedColumn(Bytes(q), w, n, 1);
    AddedColumn(Bytes(q), w, n, 2);
    AddedColumn(Bytes(q), w, n, 3);
    SameColumns(RoundKeyAdded(Bytes(q), w, n), Bytes(r));
  }

  /** SubBytes and ShiftRows. */
  function Moved(q: Quad): Quad {
    Quad(SubWord(Word(q.c0.b0, q.c1.b1, q.c2.b2, q.c3.b3)), SubWord(Word(q.c1.b0, q.c2.b1, q.c3.b2, q.c0.b3)),
         SubWord(Word(q.c2.b0, q.c3.b1, q.c0.b2, q.c1.b3)), SubWord(Word(q.c3.b0, q.c0.b1, q.c1.b2, q.c2.b3)))
  }

  lemma SubstitutedColumn(s: Block, c: nat)
    requires c < 4
    ensures Column(Substituted(Sbox, s), c) == SubWord(Column(s, c))
  {
    hide Sbox;
  }

  lemma SubstitutedColumns(q: Quad, t: Block)
    requires t == Substituted(Sbox, Bytes(q))
    ensures Word(t[0], t[1], t[2], t[3]) == SubWord(q.c0) && Word(t[4], t[5], t[6], t[7]) == SubWord(q.c1)
    ensures Word(t[8], t[9], t[10], t[11]) == SubWord(q.c2) && Word(t[12], t[13], t[14], t[15]) == SubWord(q.c3)
  {
    hide Sbox, Joined, Substituted, SubWord;
    JoinedColumns(q.c0, q.c1, q.c2, q.c3);
    SubstitutedColumn(Bytes(q), 0);
    SubstitutedColumn(Bytes(q), 1);
    SubstitutedColumn(Bytes(q), 2);
    SubstitutedColumn(Bytes(q), 3);
  }

  lemma MovedBytes(q: Quad)
    ensures ShiftedRows(Substituted(Sbox, Bytes(q))) == Bytes(Moved(q))
  {
    hide Sbox, Joined, ShiftedRows, Column, Substituted;
    var t, m := Substituted(Sbox, Bytes(q)), Moved(q);
    SubstitutedColumns(q, t);
    ShiftedColumns(t);
    JoinedColumns(m.c0, m.c1, m.c2, m.c3);
    SameColumns(ShiftedRows(t), Bytes(m));
  }

  /** MixColumns. */
  function Blended(q: Quad): Quad {
    Quad(SharedSumColumn(q.c0), SharedSumColumn(q.c1), SharedSumColumn(q.c2), SharedSumColumn(q.c3))
  }

  lemma BlendedBytes(q: Quad)
    ensures Mixed(MixColumn, Bytes(q)) == Bytes(Blended(q))
  {
    hide MixColumn, SharedSumColumn, Column;
    JoinedColumns(q.c0, q.c1, q.c2, q.c3);
    SharedSumIsProduct(q.c0);
    SharedSumIsProduct(q.c1);
    SharedSumIsProduct(q.c2);
    SharedSumIsProduct(q.c3);
  }

  /** The state after round `n`. */
  ghost predicate After(n: nat, q: Quad)
    requires n <= 9
  {
    Rounds(PLAIN, Expanded(KEY), n) == Bytes(q)
  }

  lemma RoundFollows(n: nat, q: Quad, moved: Quad, k: Quad, r: Quad)
    requires n < 9 && After(n, q) && RoundKey(n + 1, k) && moved == Moved(q) && r == Summed(Blended(moved), k)
    ensures After(n + 1, r)
  {
    hide RoundKeyAdded, ShiftedRows, Substituted, Mixed, Bytes, Moved, Blended, Summed, Expanded, RoundKey;
    MovedBytes(q);
    BlendedBytes(moved);
    KeyAdded(Blended(moved), k, n + 1);
  }

  lemma Round0()
    ensures After(0, S0)
  {
    RoundKey0();
    var plain := Quad(Word(0x32, 0x43, 0xf6, 0xa8), Word(0x88, 0x5a, 0x30, 0x8d),
                      Word(0x31, 0x31, 0x98, 0xa2), Word(0xe0, 0x37, 0x07, 0x34));
    assert Bytes(plain) == PLAIN;
    assert Summed(plain, K0) == S0;
    hide RoundKeyAdded, Bytes, Summed, Expanded, RoundKey;
    KeyAdded(plain, K0, 0);
    assert Rounds(PLAIN, Expanded(KEY), 0) == RoundKeyAdded(PLAIN, Expanded(KEY), 0);
  }

  const M1: Quad :=
    Quad(Word(0xd4, 0xbf, 0x5d, 0x30), Word(0xe0, 0xb4, 0x52, 0xae),
       Word(0xb8, 0x41, 0x11, 0xf1), Word(0x1e, 0x27, 0x98, 0xe5))

  lemma Left1()
    ensures SubWord(Word(0x19, 0xf4, 0x8d, 0x08)) == M1.c0 && SubWord(Word(0xa0, 0xc6, 0x48, 0xbe)) == M1.c1
  {
  }

  lemma Right1()
    ensures SubWord(Word(0x9a, 0xf8, 0xe3, 0x2b)) == M1.c2 && SubWord(Word(0xe9, 0x3d, 0xe2, 0x2a)) == M1.c3
  {
  }

  lemma Round1()
    ensures After(1, S1)
  {
    hide After, RoundKey, SubWord;
    Round0();
    RoundKey1();
    Left1();
    Right1();
    assert M1 == Moved(S0);
    assert S1 == Summed(Blended(M1), K1);
    hide *;
    RoundFollows(0, S0, M1, K1, S1);
  }

  const M2: Quad :=
    Quad(Word(0x49, 0xdb, 0x87, 0x3b), Word(0x45, 0x39, 0x53, 0x89),
       Word(0x7f, 0x02, 0xd2, 0xf1), Word(0x77, 0xde, 0x96, 0x1a))

  lemma Left2()
    ensures SubWord(Word(0xa4, 0x9f, 0xea, 0x49)) == M2.c0 && SubWord(Word(0x68, 0x5b, 0x50, 0xf2)) == M2.c1
  {
  }

  lemma Right2()
    ensures SubWord(Word(0x6b, 0x6a, 0x7f, 0x2b)) == M2.c2 && SubWord(Word(0x02, 0x9c, 0x35, 0x43)) == M2.c3
  {
  }

  lemma Round2()
    ensures After(2, S2)
  {
    hide After, RoundKey, SubWord;
    Round1();
    RoundKey2();
    Left2();
    Right2();
    assert M2 == Moved(S1);
    assert S2 == Summed(Blended(M2), K2);
    hide *;
    RoundFollows(1, S1, M2, K2, S2);
  }

  const M3: Quad :=
    Quad(Word(0xac, 0xc1, 0xd6, 0xb8), Word(0xef, 0xb5, 0x5a, 0x7b),
       Word(0x13, 0x23, 0xcf, 0xdf), Word(0x45, 0x73, 0x11, 0xb5))

  lemma Left3()
    ensures SubWord(Word(0xaa, 0xdd, 0x4a, 0x9a)) == M3.c0 && SubWord(Word(0x61, 0xd2, 0x46, 0x03)) == M3.c1
  {
  }

  lemma Right3()
    ensures SubWord(Word(0x82, 0x32, 0x5f, 0xef)) == M3.c2 && SubWord(Word(0x68, 0x8f, 0xe3, 0xd2)) == M3.c3
  {
  }

  lemma Round3()
    ensures After(3, S3)
  {
    hide After, RoundKey, SubWord;
    Round2();
    RoundKey3();
    Left3();
    Right3();
    assert M3 == Moved(S2);
    assert S3 == Summed(Blended(M3), K3);
    hide *;
    RoundFollows(2, S2, M3, K3, S3);
  }

  const M4: Quad :=
    Quad(Word(0x52, 0xa4, 0xc8, 0x94), Word(0x85, 0x11, 0x6a, 0x28),
       Word(0xe3, 0xcf, 0x2f, 0xd7), Word(0xf6, 0x50, 0x5e, 0x07))

  lemma Left4()
    ensures SubWord(Word(0x48, 0x1d, 0xb1, 0xe7)) == M4.c0 && SubWord(Word(0x67, 0xe3, 0x58, 0xee)) == M4.c1
  {
  }

  lemma Right4()
    ensures SubWord(Word(0x4d, 0x5f, 0x4e, 0x0d)) == M4.c2 && SubWord(Word(0xd6, 0x6c, 0x9d, 0x38)) == M4.c3
  {
  }

  lemma Round4()
    ensures After(4, S4)
  {
    hide After, RoundKey, SubWord;
    Round3();
    RoundKey4();
    Left4();
    Right4();
    assert M4 == Moved(S3);
    assert S4 == Summed(Blended(M4), K4);
    hide *;
    RoundFollows(3, S3, M4, K4, S4);
  }

  const M5: Quad :=
    Quad(Word(0xe1, 0xfb, 0x96, 0x7c), Word(0xe8, 0xc8, 0xae, 0x9b),
       Word(0x35, 0x6c, 0xd2, 0xba), Word(0x97, 0x4f, 0xfb, 0x53))

  lemma Left5()
    ensures SubWord(Word(0xe0, 0x63, 0x35, 0x01)) == M5.c0 && SubWord(Word(0xc8, 0xb1, 0xbe, 0xe8)) == M5.c1
  {
  }

  lemma Right5()
    ensures SubWord(Word(0xd9, 0xb8, 0x7f, 0xc0)) == M5.c2 && SubWord(Word(0x85, 0x92, 0x63, 0x50)) == M5.c3
  {
  }

  lemma Round5()
    ensures After(5, S5)
  {
    hide After, RoundKey, SubWord;
    Round4();
    RoundKey5();
    Left5();
    Right5();
    assert M5 == Moved(S4);
    assert S5 == Summed(Blended(M5), K5);
    hide *;
    RoundFollows(4, S4, M5, K5, S5);
  }

  const M6: Quad :=
    Quad(Word(0xa1, 0x4f, 0x3d, 0xfe), Word(0x78, 0xe8, 0x03, 0xfc),
       Word(0x10, 0xd5, 0xa8, 0xdf), Word(0x4c, 0x63, 0x29, 0x23))

  lemma Left6()
    ensures SubWord(Word(0xf1, 0x92, 0x8b, 0x0c)) == M6.c0 && SubWord(Word(0xc1, 0xc8, 0xd5, 0x55)) == M6.c1
  {
  }

  lemma Right6()
    ensures SubWord(Word(0x7c, 0xb5, 0x6f, 0xef)) == M6.c2 && SubWord(Word(0x5d, 0x00, 0x4c, 0x32)) == M6.c3
  {
  }

  lemma Round6()
    ensures After(6, S6)
  {
    hide After, RoundKey, SubWord;
    Round5();
    RoundKey6();
    Left6();
    Right6();
    assert M6 == Moved(S5);
    assert S6 == Summed(Blended(M6), K6);
    hide *;
    RoundFollows(5, S5, M6, K6, S6);
  }

  const M7: Quad :=
    Quad(Word(0xf7, 0x83, 0x40, 0x3f), Word(0x27, 0x43, 0x3d, 0xf0),
       Word(0x9b, 0xb5, 0x31, 0xff), Word(0x54, 0xab, 0xa9, 0xd3))

  lemma Left7()
    ensures SubWord(Word(0x26, 0x41, 0x72, 0x25)) == M7.c0 && SubWord(Word(0x3d, 0x64, 0x8b, 0x17)) == M7.c1
  {
  }

  lemma Right7()
    ensures SubWord(Word(0xe8, 0xd2, 0x2e, 0x7d)) == M7.c2 && SubWord(Word(0xfd, 0x0e, 0xb7, 0xa9)) == M7.c3
  {
  }

  lemma Round7()
    ensures After(7, S7)
  {
    hide After, RoundKey, SubWord;
    Round6();
    RoundKey7();
    Left7();
    Right7();
    assert M7 == Moved(S6);
    assert S7 == Summed(Blended(M7), K7);
    hide *;
    RoundFollows(6, S6, M7, K7, S7);
  }

  const M8: Quad :=
    Quad(Word(0xbe, 0x3b, 0xd4, 0xfe), Word(0xd4, 0xe1, 0xf2, 0xc8),
       Word(0x0a, 0x64, 0x2c, 0xc0), Word(0xda, 0x83, 0x86, 0x4d))

  lemma Left8()
    ensures SubWord(Word(0x5a, 0x49, 0x19, 0x0c)) == M8.c0 && SubWord(Word(0x19, 0xe0, 0x04, 0xb1)) == M8.c1
  {
  }

  lemma Right8()
    ensures SubWord(Word(0xa3, 0x8c, 0x42, 0x1f)) == M8.c2 && SubWord(Word(0x7a, 0x41, 0xdc, 0x65)) == M8.c3
  {
  }

  lemma Round8()
    ensures After(8, S8)
  {
    hide After, RoundKey, SubWord;
    Round7();
    RoundKey8();
    Left8();
    Right8();
    assert M8 == Moved(S7);
    assert S8 == Summed(Blended(M8), K8);
    hide *;
    RoundFollows(7, S7, M8, K8, S8);
  }

  const M9: Quad :=
    Quad(Word(0x87, 0x6e, 0x46, 0xa6), Word(0xf2, 0x4c, 0xe7, 0x8c),
       Word(0x4d, 0x90, 0x4a, 0xd8), Word(0x97, 0xec, 0xc3, 0x95))

  lemma Left9()
    ensures SubWord(Word(0xea, 0x45, 0x98, 0xc5)) == M9.c0 && SubWord(Word(0x04, 0x5d, 0xb0, 0xf0)) == M9.c1
  {
  }

  lemma Right9()
    ensures SubWord(Word(0x65, 0x96, 0x5c, 0x2d)) == M9.c2 && SubWord(Word(0x85, 0x83, 0x33, 0xad)) == M9.c3
  {
  }

  lemma Round9()
    ensures After(9, S9)
  {
    hide After, RoundKey, SubWord;
    Round8();
    RoundKey9();
    Left9();
    Right9();
    assert M9 == Moved(S8);
    assert S9 == Summed(Blended(M9), K9);
    hide *;
    RoundFollows(8, S8, M9, K9, S9);
  }

  const M10: Quad :=
    Quad(Word(0xe9, 0x31, 0x7d, 0xb5), Word(0xcb, 0x32, 0x2c, 0x72),
       Word(0x3d, 0x2e, 0x89, 0x5f), Word(0xaf, 0x09, 0x07, 0x94))

  lemma Left10()
    ensures SubWord(Word(0xeb, 0x2e, 0x13, 0xd2)) == M10.c0 && SubWord(Word(0x59, 0xa1, 0x42, 0x1e)) == M10.c1
  {
  }

  lemma Right10()
    ensures SubWord(Word(0x8b, 0xc3, 0xf2, 0x84)) == M10.c2 && SubWord(Word(0x1b, 0x40, 0x38, 0xe7)) == M10.c3
  {
  }

  /** The cipher text of appendix B. */
  lemma CipherExample()
    ensures Cipher(KEY, PLAIN) ==
      [0x39, 0x25, 0x84, 0x1d, 0x02, 0xdc, 0x09, 0xfb, 0xdc, 0x11, 0x85, 0x97, 0x19, 0x6a, 0x0b, 0x32]
  {
    hide *;
    EndBytes();
    Round9();
    RoundKey10();
    Moved10();
    FinalRound(S9, M10, K10, END);
  }

  lemma Moved10()
    ensures M10 == Moved(S9)
  {
    hide SubWord;
    Left10();
    Right10();
  }

  const END: Quad :=
    Quad(Word(0x39, 0x25, 0x84, 0x1d), Word(0x02, 0xdc, 0x09, 0xfb),
       Word(0xdc, 0x11, 0x85, 0x97), Word(0x19, 0x6a, 0x0b, 0x32))

  lemma EndBytes()
    ensures END == Summed(M10, K10)
    ensures Bytes(END) ==
      [0x39, 0x25, 0x84, 0x1d, 0x02, 0xdc, 0x09, 0xfb, 0xdc, 0x11, 0x85, 0x97, 0x19, 0x6a, 0x0b, 0x32]
  {
  }

  /** The last round mixes no columns. */
  lemma FinalRound(q: Quad, moved: Quad, k: Quad, end: Quad)
    requires After(9, q) && RoundKey(10, k) && moved == Moved(q) && end == Summed(moved, k)
    ensures Cipher(KEY, PLAIN) == Bytes(end)
  {
    hide RoundKeyAdded, ShiftedRows, Substituted, Bytes, Moved, Summed, Expanded, RoundKey, Rounds;
    MovedBytes(q);
    KeyAdded(moved, k, 10);
  }
}
