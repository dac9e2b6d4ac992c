/** GF(2^8) as section 4 of FIPS 197 defines it, and matrices over it. */
module GaloisField {

  /** Addition, section 4.1. */
  function Add(a: bv8, b: bv8): bv8 {
    a ^ b
  }

  /** Multiplication by x, section 4.2.1: a shift, and the reduction by 0x1b when a bit falls out. */
  function Xtime(x: bv8): bv8 {
    (x << 1) ^ (((x >> 7) & 1) * 0x1b)
  }

  function Term(a: bv8, bit: bv8, b: bv8): bv8 {
    if a & bit != 0 then b else 0
  }

  /** Multiplication, section 4.2: the sum of the multiples of `b` by the powers of x that `a` selects. */
  function Mul(a: bv8, b: bv8): bv8 {
    var b1 := Xtime(b);
    var b2 := Xtime(b1);
    var b3 := Xtime(b2);
    var b4 := Xtime(b3);
    var b5 := Xtime(b4);
    var b6 := Xtime(b5);
    var b7 := Xtime(b6);
    Add(Add(Add(Term(a, 1, b), Term(a, 2, b1)), Add(Term(a, 4, b2), Term(a, 8, b3))),
        Add(Add(Term(a, 16, b4), Term(a, 32, b5)), Add(Term(a, 64, b6), Term(a, 128, b7))))
  }

  datatype Word = Word(b0: bv8, b1: bv8, b2: bv8, b3: bv8)

  function AddWords(u: Word, v: Word): Word {
    Word(Add(u.b0, v.b0), Add(u.b1, v.b1), Add(u.b2, v.b2), Add(u.b3, v.b3))
  }

  function Dot(m: Word, c: Word): bv8 {
    Add(Add(Mul(m.b0, c.b0), Mul(m.b1, c.b1)), Add(Mul(m.b2, c.b2), Mul(m.b3, c.b3)))
  }

  /** The circulant matrix with first row `m`, applied to a column. */
  function Product(m: Word, c: Word): Word {
    Word(Dot(m, c),
         Dot(Word(m.b3, m.b0, m.b1, m.b2), c),
         Dot(Word(m.b2, m.b3, m.b0, m.b1), c),
         Dot(Word(m.b1, m.b2, m.b3, m.b0), c))
  }

  /** The matrices of sections 5.1.3 and 5.3.3. */
  const MIX: Word := Word(0x02, 0x03, 0x01, 0x01)
  const UNMIX: Word := Word(0x0e, 0x0b, 0x0d, 0x09)

  // ---------------------------------------------------------------- multiplication is linear

  lemma Associative(a: bv8, b: bv8, c: bv8)
    ensures Add(Add(a, b), c) == Add(a, Add(b, c))
  {
  }

  lemma Commutative(a: bv8, b: bv8)
    ensures Add(a, b) == Add(b, a)
  {
  }

  lemma Swap(a: bv8, b: bv8, c: bv8, d: bv8)
    ensures Add(Add(a, b), Add(c, d)) == Add(Add(a, c), Add(b, d))
  {
    Associative(a, b, Add(c, d));
    Associative(b, c, d);
    Commutative(b, c);
    Associative(c, b, d);
    Associative(a, c, Add(b, d));
  }

  lemma Turn(a: bv8, b: bv8, c: bv8, d: bv8)
    ensures Add(Add(d, a), Add(b, c)) == Add(Add(a, b), Add(c, d))
  {
    Commutative(d, a);
    Swap(a, d, b, c);
    Commutative(d, c);
  }

  lemma XtimeAdd(x: bv8, y: bv8)
    ensures Xtime(Add(x, y)) == Add(Xtime(x), Xtime(y))
  {
  }

  lemma TermAdd(a: bv8, bit: bv8, x: bv8, y: bv8)
    ensures Term(a, bit, Add(x, y)) == Add(Term(a, bit, x), Term(a, bit, y))
  {
  }

  lemma MulAdd(a: bv8, x: bv8, y: bv8)
    ensures Mul(a, Add(x, y)) == Add(Mul(a, x), Mul(a, y))
  {
    PowersAdd(a, 1, 2, x, y);
    var x2, y2 := Xtime(Xtime(x)), Xtime(Xtime(y));
    PowersAdd(a, 4, 8, x2, y2);
    var x4, y4 := Xtime(Xtime(x2)), Xtime(Xtime(y2));
    PowersAdd(a, 16, 32, x4, y4);
    var x6, y6 := Xtime(Xtime(x4)), Xtime(Xtime(y4));
    PowersAdd(a, 64, 128, x6, y6);
    Swap(Pair(a, 1, 2, x), Pair(a, 1, 2, y), Pair(a, 4, 8, x2), Pair(a, 4, 8, y2));
    Swap(Pair(a, 16, 32, x4), Pair(a, 16, 32, y4), Pair(a, 64, 128, x6), Pair(a, 64, 128, y6));
    Swap(Add(Pair(a, 1, 2, x), Pair(a, 4, 8, x2)), Add(Pair(a, 1, 2, y), Pair(a, 4, 8, y2)),
         Add(Pair(a, 16, 32, x4), Pair(a, 64, 128, x6)), Add(Pair(a, 16, 32, y4), Pair(a, 64, 128, y6)));
  }

  function Pair(a: bv8, bit: bv8, next: bv8, x: bv8): bv8 {
    Add(Term(a, bit, x), Term(a, next, Xtime(x)))
  }

  lemma PowersAdd(a: bv8, bit: bv8, next: bv8, x: bv8, y: bv8)
    ensures Pair(a, bit, next, Add(x, y)) == Add(Pair(a, bit, next, x), Pair(a, bit, next, y))
    ensures Xtime(Xtime(Add(x, y))) == Add(Xtime(Xtime(x)), Xtime(Xtime(y)))
  {
    XtimeAdd(x, y);
    XtimeAdd(Xtime(x), Xtime(y));
    TermAdd(a, bit, x, y);
    TermAdd(a, next, Xtime(x), Xtime(y));
    Swap(Term(a, bit, x), Term(a, bit, y), Term(a, next, Xtime(x)), Term(a, next, Xtime(y)));
  }

  lemma DotAdd(m: Word, u: Word, v: Word)
    ensures Dot(m, AddWords(u, v)) == Add(Dot(m, u), Dot(m, v))
  {
    MulAdd(m.b0, u.b0, v.b0);
    MulAdd(m.b1, u.b1, v.b1);
    MulAdd(m.b2, u.b2, v.b2);
    MulAdd(m.b3, u.b3, v.b3);
    Swap(Mul(m.b0, u.b0), Mul(m.b0, v.b0), Mul(m.b1, u.b1), Mul(m.b1, v.b1));
    Swap(Mul(m.b2, u.b2), Mul(m.b2, v.b2), Mul(m.b3, u.b3), Mul(m.b3, v.b3));
    Swap(Add(Mul(m.b0, u.b0), Mul(m.b1, u.b1)), Add(Mul(m.b0, v.b0), Mul(m.b1, v.b1)),
         Add(Mul(m.b2, u.b2), Mul(m.b3, u.b3)), Add(Mul(m.b2, v.b2), Mul(m.b3, v.b3)));
  }

  lemma ProductAdd(m: Word, u: Word, v: Word)
    ensures Product(m, AddWords(u, v)) == AddWords(Product(m, u), Product(m, v))
  {
    DotAdd(m, u, v);
    DotAdd(Word(m.b3, m.b0, m.b1, m.b2), u, v);
    DotAdd(Word(m.b2, m.b3, m.b0, m.b1), u, v);
    DotAdd(Word(m.b1, m.b2, m.b3, m.b0), u, v);
  }

  // ---------------------------------------------------------------- the two matrices are inverse

  function Turned(c: Word): Word {
    Word(c.b1, c.b2, c.b3, c.b0)
  }

  /** Turning a column turns its product. */
  lemma ProductTurned(m: Word, c: Word)
    ensures Product(m, Turned(c)) == Turned(Product(m, c))
  {
    DotTurned(m, c);
    DotTurned(Word(m.b1, m.b2, m.b3, m.b0), c);
    DotTurned(Word(m.b2, m.b3, m.b0, m.b1), c);
    DotTurned(Word(m.b3, m.b0, m.b1, m.b2), c);
  }

  lemma DotTurned(m: Word, c: Word)
    ensures Dot(m, Turned(c)) == Dot(Word(m.b3, m.b0, m.b1, m.b2), c)
  {
    Turn(Mul(m.b0, c.b1), Mul(m.b1, c.b2), Mul(m.b2, c.b3), Mul(m.b3, c.b0));
  }

  lemma MixedSingle(a: bv8)
    ensures Product(MIX, Word(a, 0, 0, 0)) == Word(Xtime(a), a, a, Add(Xtime(a), a))
  {
  }

  lemma Row0(a: bv8)
    ensures Dot(UNMIX, Word(Xtime(a), a, a, Add(Xtime(a), a))) == a
  {
  }

  lemma Row1(a: bv8)
    ensures Dot(Word(0x09, 0x0e, 0x0b, 0x0d), Word(Xtime(a), a, a, Add(Xtime(a), a))) == 0
  {
  }

  lemma Row2(a: bv8)
    ensures Dot(Word(0x0d, 0x09, 0x0e, 0x0b), Word(Xtime(a), a, a, Add(Xtime(a), a))) == 0
  {
  }

  lemma Row3(a: bv8)
    ensures Dot(Word(0x0b, 0x0d, 0x09, 0x0e), Word(Xtime(a), a, a, Add(Xtime(a), a))) == 0
  {
  }

  lemma UnmixSingle(a: bv8)
    ensures Both(UNMIX, MIX, Single(a)) == Single(a)
  {
    MixedSingle(a);
    Row0(a);
    Row1(a);
    Row2(a);
    Row3(a);
  }

  lemma MixRow(c: Word)
    ensures Dot(MIX, c) == Add(Add(Xtime(c.b0), Add(Xtime(c.b1), c.b1)), Add(c.b2, c.b3))
  {
    Double(c.b0);
    Triple(c.b1);
    One(c.b2);
    One(c.b3);
  }

  lemma One(b: bv8)
    ensures Mul(0x01, b) == b
  {
  }

  lemma Double(b: bv8)
    ensures Mul(0x02, b) == Xtime(b)
  {
  }

  lemma Triple(b: bv8)
    ensures Mul(0x03, b) == Add(Xtime(b), b)
  {
  }

  function Fourteen(a: bv8): bv8 {
    Add(Add(Xtime(a), Xtime(Xtime(a))), Xtime(Xtime(Xtime(a))))
  }

  function Nine(a: bv8): bv8 {
    Add(a, Xtime(Xtime(Xtime(a))))
  }

  function Thirteen(a: bv8): bv8 {
    Add(Nine(a), Xtime(Xtime(a)))
  }

  function Eleven(a: bv8): bv8 {
    Add(Nine(a), Xtime(a))
  }

  lemma MulFourteen(a: bv8)
    ensures Mul(0x0e, a) == Fourteen(a)
  {
  }

  lemma MulNine(a: bv8)
    ensures Mul(0x09, a) == Nine(a)
  {
  }

  lemma MulThirteen(a: bv8)
    ensures Mul(0x0d, a) == Thirteen(a)
  {
  }

  lemma MulEleven(a: bv8)
    ensures Mul(0x0b, a) == Eleven(a)
  {
  }

  lemma MulZero(m: bv8)
    ensures Mul(m, 0) == 0
  {
  }

  lemma Zero(a: bv8)
    ensures Add(a, 0) == a && Add(0, a) == a
  {
  }

  /** One row of a product whose column has a single non-zero byte. */
  lemma DotSingle(m: Word, a: bv8)
    ensures Dot(m, Word(a, 0, 0, 0)) == Mul(m.b0, a)
  {
    MulZero(m.b1);
    MulZero(m.b2);
    MulZero(m.b3);
    Zero(Mul(m.b0, a));
    Zero(0);
  }

  lemma UnmixedSingle(a: bv8)
    ensures Product(UNMIX, Word(a, 0, 0, 0)) == Word(Fourteen(a), Nine(a), Thirteen(a), Eleven(a))
  {
    DotSingle(UNMIX, a);
    DotSingle(Word(0x09, 0x0e, 0x0b, 0x0d), a);
    DotSingle(Word(0x0d, 0x09, 0x0e, 0x0b), a);
    DotSingle(Word(0x0b, 0x0d, 0x09, 0x0e), a);
    MulFourteen(a);
    MulNine(a);
    MulThirteen(a);
    MulEleven(a);
  }

  lemma MixRow0(a: bv8)
    ensures Add(Add(Xtime(Fourteen(a)), Add(Xtime(Nine(a)), Nine(a))), Add(Thirteen(a), Eleven(a))) == a
  {
  }

  lemma MixRow1(a: bv8)
    ensures Add(Add(Xtime(Nine(a)), Add(Xtime(Thirteen(a)), Thirteen(a))), Add(Eleven(a), Fourteen(a))) == 0
  {
  }

  lemma MixRow2(a: bv8)
    ensures Add(Add(Xtime(Thirteen(a)), Add(Xtime(Eleven(a)), Eleven(a))), Add(Fourteen(a), Nine(a))) == 0
  {
  }

  lemma MixRow3(a: bv8)
    ensures Add(Add(Xtime(Eleven(a)), Add(Xtime(Fourteen(a)), Fourteen(a))), Add(Nine(a), Thirteen(a))) == 0
  {
  }

  /** Every row of a product with MIX is its first row, applied to the column turned. */
  lemma MixRows(c: Word)
    ensures Product(MIX, c) ==
      Word(Dot(MIX, c), Dot(MIX, Turned(c)), Dot(MIX, Turned(Turned(c))), Dot(MIX, Turned(Turned(Turned(c)))))
  {
    ProductTurned(MIX, c);
    ProductTurned(MIX, Turned(c));
    ProductTurned(MIX, Turned(Turned(c)));
  }

  lemma MixSingle(a: bv8)
    ensures Both(MIX, UNMIX, Single(a)) == Single(a)
  {
    UnmixedSingle(a);
    var c := Word(Fourteen(a), Nine(a), Thirteen(a), Eleven(a));
    MixRows(c);
    MixRow(c);
    MixRow(Turned(c));
    MixRow(Turned(Turned(c)));
    MixRow(Turned(Turned(Turned(c))));
    MixRow0(a);
    MixRow1(a);
    MixRow2(a);
    MixRow3(a);
  }

  function Single(a: bv8): Word {
    Word(a, 0, 0, 0)
  }

  function Both(m: Word, n: Word, c: Word): Word {
    Product(m, Product(n, c))
  }

  ghost predicate UndoesSingles(m: Word, n: Word) {
    forall a :: Both(m, n, Single(a)) == Single(a)
  }

  lemma BothTurned(m: Word, n: Word, c: Word, to: Word)
    requires Both(m, n, Turned(c)) == Turned(to)
    ensures Both(m, n, c) == to
  {
    ProductTurned(n, c);
    ProductTurned(m, Product(n, c));
  }

  lemma BothAdd(m: Word, n: Word, u: Word, v: Word)
    ensures Both(m, n, AddWords(u, v)) == AddWords(Both(m, n, u), Both(m, n, v))
  {
    ProductAdd(n, u, v);
    ProductAdd(m, Product(n, u), Product(n, v));
  }

  /** A product that undoes another on columns with one non-zero byte undoes it on every column. */
  lemma SinglesSuffice(m: Word, n: Word, c: Word)
    requires UndoesSingles(m, n)
    ensures Both(m, n, c) == c
  {
    var s0, s1, s2, s3 := Single(c.b0), Word(0, c.b1, 0, 0), Word(0, 0, c.b2, 0), Word(0, 0, 0, c.b3);
    assert Turned(s1) == Single(c.b1) && Turned(Turned(s2)) == Single(c.b2);
    assert Turned(Turned(Turned(s3))) == Single(c.b3);
    BothTurned(m, n, s1, s1);
    BothTurned(m, n, Turned(s2), Turned(s2));
    BothTurned(m, n, s2, s2);
    BothTurned(m, n, Turned(Turned(s3)), Turned(Turned(s3)));
    BothTurned(m, n, Turned(s3), Turned(s3));
    BothTurned(m, n, s3, s3);
    BothAdd(m, n, s0, s1);
    BothAdd(m, n, s2, s3);
    BothAdd(m, n, AddWords(s0, s1), AddWords(s2, s3));
    Zero(0);
    Zero(c.b0);
    Zero(c.b1);
    Zero(c.b2);
    Zero(c.b3);
    assert AddWords(AddWords(s0, s1), AddWords(s2, s3)) == c;
  }

  lemma UnmixUndoesSingles()
    ensures UndoesSingles(UNMIX, MIX)
  {
    forall a {
      UnmixSingle(a);
    }
  }

  lemma MixUndoesSingles()
    ensures UndoesSingles(MIX, UNMIX)
  {
    forall a {
      MixSingle(a);
    }
  }

  /** The two matrices are inverse to each other. */
  lemma MixUndone(c: Word)
    ensures Both(UNMIX, MIX, c) == c && Both(MIX, UNMIX, c) == c
  {
    UnmixUndoesSingles();
    SinglesSuffice(UNMIX, MIX, c);
    MixUndoesSingles();
    SinglesSuffice(MIX, UNMIX, c);
  }
}
