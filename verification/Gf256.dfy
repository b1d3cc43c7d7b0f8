/**
 Arithmetic in GF(2^8) as the AES cores use it: `xtime`, the constant multipliers `pmul_*`
 and the rows of the two column matrices, with the general multiplication of section 4.2
 of FIPS 197 as the reference.

 Sums are written with the named function Xor so that the algebraic proofs can hide its
 definition and rearrange sums with a handful of lemmas instead of bit by bit.
 */
module Gf256 {
  type Byte = bv8

  /** Addition in GF(2^8). */
  function Xor(a: Byte, b: Byte): Byte {
    a ^ b
  }

  /** Multiplication by x: shift left, and fold the bit that falls out back in as 0x1b. */
  function XTime(b: Byte): Byte {
    (b << 1) ^ (if b & 0x80 == 0 then 0 else 0x1b)
  }

  function Times3(b: Byte): Byte {
    Xor(XTime(b), b)
  }

  function PMul9(b: Byte): Byte {
    var two := XTime(b); var four := XTime(two); var eight := XTime(four);
    Xor(eight, b)
  }

  function PMulB(b: Byte): Byte {
    var two := XTime(b); var four := XTime(two); var eight := XTime(four);
    Xor(Xor(eight, two), b)
  }

  function PMulD(b: Byte): Byte {
    var two := XTime(b); var four := XTime(two); var eight := XTime(four);
    Xor(Xor(eight, four), b)
  }

  function PMulE(b: Byte): Byte {
    var two := XTime(b); var four := XTime(two); var eight := XTime(four);
    Xor(Xor(eight, four), two)
  }

  // ----- the reference multiplication

  function Sum(a: Byte, b: Byte, c: Byte, d: Byte): Byte {
    Xor(Xor(a, b), Xor(c, d))
  }

  function Sum5(a: Byte, b: Byte, c: Byte, d: Byte, e: Byte): Byte {
    Xor(Sum(a, b, c, d), e)
  }

  /** The term, if the bits of c under the mask are set. */
  function Masked(c: Byte, mask: Byte, term: Byte): Byte {
    if c & mask == 0 then 0 else term
  }

  /** Section 4.2.1 of FIPS 197: the sum of the multiples x^i * b over the bits i set in c. */
  function Times(c: Byte, b: Byte): Byte {
    var b1 := XTime(b); var b2 := XTime(b1); var b3 := XTime(b2); var b4 := XTime(b3);
    var b5 := XTime(b4); var b6 := XTime(b5); var b7 := XTime(b6);
    Xor(Sum(Masked(c, 0x01, b), Masked(c, 0x02, b1), Masked(c, 0x04, b2), Masked(c, 0x08, b3)),
        Sum(Masked(c, 0x10, b4), Masked(c, 0x20, b5), Masked(c, 0x40, b6), Masked(c, 0x80, b7)))
  }

  /** With the high half of c clear, the first four terms are the whole sum. */
  lemma TimesBelow16(c: Byte, b: Byte)
    requires c & 0xf0 == 0
    ensures var b1 := XTime(b); var b2 := XTime(b1); var b3 := XTime(b2);
      Times(c, b) == Sum(Masked(c, 0x01, b), Masked(c, 0x02, b1), Masked(c, 0x04, b2), Masked(c, 0x08, b3))
  {
    assert c & 0x10 == 0 && c & 0x20 == 0 && c & 0x40 == 0 && c & 0x80 == 0;
    assert Sum(0, 0, 0, 0) == 0;
    assert forall a: Byte :: Xor(a, 0) == a;
    hide XTime, Xor, Sum;
  }

  /** Which of the four terms the constants of the two matrices keep. */
  lemma MaskedConstants(a: Byte, b: Byte, c: Byte, d: Byte)
    ensures Masked(0x02, 0x01, a) == 0 && Masked(0x02, 0x02, b) == b
      && Masked(0x02, 0x04, c) == 0 && Masked(0x02, 0x08, d) == 0
    ensures Masked(0x03, 0x01, a) == a && Masked(0x03, 0x02, b) == b
      && Masked(0x03, 0x04, c) == 0 && Masked(0x03, 0x08, d) == 0
    ensures Masked(0x09, 0x01, a) == a && Masked(0x09, 0x02, b) == 0
      && Masked(0x09, 0x04, c) == 0 && Masked(0x09, 0x08, d) == d
    ensures Masked(0x0b, 0x01, a) == a && Masked(0x0b, 0x02, b) == b
      && Masked(0x0b, 0x04, c) == 0 && Masked(0x0b, 0x08, d) == d
    ensures Masked(0x0d, 0x01, a) == a && Masked(0x0d, 0x02, b) == 0
      && Masked(0x0d, 0x04, c) == c && Masked(0x0d, 0x08, d) == d
    ensures Masked(0x0e, 0x01, a) == 0 && Masked(0x0e, 0x02, b) == b
      && Masked(0x0e, 0x04, c) == c && Masked(0x0e, 0x08, d) == d
  {
  }

  lemma SomeOfFour(a: Byte, b: Byte, c: Byte, d: Byte)
    ensures Sum(0, b, 0, 0) == b && Sum(a, b, 0, 0) == Xor(b, a)
    ensures Sum(a, 0, 0, d) == Xor(d, a) && Sum(a, b, 0, d) == Xor(Xor(d, b), a)
    ensures Sum(a, 0, c, d) == Xor(Xor(d, c), a) && Sum(0, b, c, d) == Xor(Xor(d, c), b)
  {
    assert forall x: Byte :: Xor(x, 0) == x && Xor(0, x) == x;
    hide Xor;
    XorCommutes(a, b);
    XorCommutes(a, d);
    XorCommutes(c, d);
    XorAssociates(d, b, a);
    XorCommutes(d, Xor(b, a));
    XorCommutes(Xor(d, c), a);
    XorCommutes(Xor(d, c), b);
  }

  lemma MatrixConstants(b: Byte)
    ensures XTime(b) == Times(0x02, b)
    ensures Times3(b) == Times(0x03, b)
  {
    TimesBelow16(0x02, b);
    TimesBelow16(0x03, b);
    var two := XTime(b); var four := XTime(two);
    MaskedConstants(b, two, four, XTime(four));
    SomeOfFour(b, two, 0, 0);
    hide XTime, Times, Sum, Xor, Masked;
  }

  lemma InverseMatrixConstants(b: Byte)
    ensures PMul9(b) == Times(0x09, b) && PMulB(b) == Times(0x0b, b)
  {
    TimesBelow16(0x09, b);
    TimesBelow16(0x0b, b);
    var two := XTime(b); var four := XTime(two); var eight := XTime(four);
    MaskedConstants(b, two, four, eight);
    SomeOfFour(b, two, four, eight);
    hide XTime, Times, Sum, Xor, Masked;
  }

  lemma InverseMatrixConstants'(b: Byte)
    ensures PMulD(b) == Times(0x0d, b) && PMulE(b) == Times(0x0e, b)
  {
    TimesBelow16(0x0d, b);
    TimesBelow16(0x0e, b);
    var two := XTime(b); var four := XTime(two); var eight := XTime(four);
    MaskedConstants(b, two, four, eight);
    SomeOfFour(b, two, four, eight);
    hide XTime, Times, Sum, Xor, Masked;
  }

  // ----- sums

  lemma XorCancels(a: Byte, k: Byte)
    ensures Xor(Xor(a, k), k) == a
  {
  }

  lemma XorAssociates(a: Byte, b: Byte, c: Byte)
    ensures Xor(Xor(a, b), c) == Xor(a, Xor(b, c))
  {
  }

  lemma XorCommutes(a: Byte, b: Byte)
    ensures Xor(a, b) == Xor(b, a)
  {
  }

  lemma Exchange(a: Byte, b: Byte, c: Byte, d: Byte)
    ensures Xor(Xor(a, b), Xor(c, d)) == Xor(Xor(a, c), Xor(b, d))
  {
    hide Xor;
    XorAssociates(a, b, Xor(c, d));
    XorAssociates(b, c, d);
    XorCommutes(b, c);
    XorAssociates(c, b, d);
    XorAssociates(a, c, Xor(b, d));
  }

  lemma RotateSum(a: Byte, b: Byte, c: Byte, d: Byte)
    ensures Sum(b, c, d, a) == Sum(a, b, c, d)
  {
    hide Xor;
    XorCommutes(d, a);
    Exchange(b, c, a, d);
    XorCommutes(b, a);
  }

  /** A sum of five rotated in any of the four ways a row of `mix_col` uses. */
  lemma RegroupSum5(x: Byte, y: Byte, a: Byte, b: Byte, c: Byte)
    ensures Sum5(x, y, a, b, c) == Sum(x, Xor(y, a), b, c)
    ensures Sum5(c, x, y, a, b) == Sum(x, Xor(y, a), b, c)
    ensures Sum5(b, c, x, y, a) == Sum(x, Xor(y, a), b, c)
    ensures Sum5(y, a, b, c, x) == Sum(x, Xor(y, a), b, c)
  {
    forall p: Byte, q: Byte, r: Byte, s: Byte, t: Byte
      ensures Sum5(p, q, r, s, t) == Sum5(q, r, s, t, p)
    {
      hide Xor;
      XorCommutes(p, q);
      XorAssociates(q, p, Xor(r, s));
      XorCommutes(p, Xor(r, s));
      XorAssociates(q, Xor(r, s), p);
      XorAssociates(q, r, s);
      XorAssociates(Xor(q, r), s, p);
      XorAssociates(Xor(q, r), Xor(s, p), t);
      XorAssociates(s, p, t);
      XorCommutes(p, t);
      XorAssociates(s, t, p);
      XorAssociates(Xor(q, r), Xor(s, t), p);
    }
    hide Xor;
    XorAssociates(Xor(x, y), Xor(a, b), c);
    XorAssociates(a, b, c);
    XorAssociates(Xor(x, y), a, Xor(b, c));
    XorAssociates(x, y, a);
  }

  lemma SumOfZeros(a: Byte)
    ensures Sum(a, 0, 0, 0) == a
  {
  }

  /** Summing a square by rows or by columns is the same. */
  lemma Transpose(a0: Byte, a1: Byte, a2: Byte, a3: Byte, b0: Byte, b1: Byte, b2: Byte, b3: Byte,
                  c0: Byte, c1: Byte, c2: Byte, c3: Byte, d0: Byte, d1: Byte, d2: Byte, d3: Byte)
    ensures Sum(Sum(a0, a1, a2, a3), Sum(b0, b1, b2, b3), Sum(c0, c1, c2, c3), Sum(d0, d1, d2, d3))
         == Sum(Sum(a0, b0, c0, d0), Sum(a1, b1, c1, d1), Sum(a2, b2, c2, d2), Sum(a3, b3, c3, d3))
  {
    hide Xor;
    Exchange(Xor(a0, a1), Xor(a2, a3), Xor(b0, b1), Xor(b2, b3));
    Exchange(Xor(c0, c1), Xor(c2, c3), Xor(d0, d1), Xor(d2, d3));
    Exchange(a0, a1, b0, b1);
    Exchange(a2, a3, b2, b3);
    Exchange(c0, c1, d0, d1);
    Exchange(c2, c3, d2, d3);
    Exchange(Xor(Xor(a0, b0), Xor(a1, b1)), Xor(Xor(a2, b2), Xor(a3, b3)),
             Xor(Xor(c0, d0), Xor(c1, d1)), Xor(Xor(c2, d2), Xor(c3, d3)));
    Exchange(Xor(a0, b0), Xor(a1, b1), Xor(c0, d0), Xor(c1, d1));
    Exchange(Xor(a2, b2), Xor(a3, b3), Xor(c2, d2), Xor(c3, d3));
  }

  /** A square whose rows are given rotated so that each diagonal lines up as a row. */
  lemma TransposeRotated(a0: Byte, a1: Byte, a2: Byte, a3: Byte, b0: Byte, b1: Byte, b2: Byte, b3: Byte,
                         c0: Byte, c1: Byte, c2: Byte, c3: Byte, d0: Byte, d1: Byte, d2: Byte, d3: Byte)
    ensures Sum(Sum(a0, a1, a2, a3), Sum(b1, b2, b3, b0), Sum(c2, c3, c0, c1), Sum(d3, d0, d1, d2))
         == Sum(Sum(a0, b0, c0, d0), Sum(a1, b1, c1, d1), Sum(a2, b2, c2, d2), Sum(a3, b3, c3, d3))
  {
    hide Sum;
    RotateSum(b0, b1, b2, b3);
    RotateSum(c0, c1, c2, c3);
    RotateSum(c1, c2, c3, c0);
    RotateSum(d3, d0, d1, d2);
    Transpose(a0, a1, a2, a3, b0, b1, b2, b3, c0, c1, c2, c3, d0, d1, d2, d3);
  }

  // ----- linearity

  lemma XTimeLinear(a: Byte, b: Byte)
    ensures XTime(Xor(a, b)) == Xor(XTime(a), XTime(b))
  {
    if a & 0x80 == 0 {
      assert (a ^ b) & 0x80 == 0 <==> b & 0x80 == 0;
    } else {
      assert (a ^ b) & 0x80 == 0 <==> b & 0x80 != 0;
    }
  }

  lemma PMulLinear(a: Byte, b: Byte)
    ensures PMul9(Xor(a, b)) == Xor(PMul9(a), PMul9(b))
    ensures PMulB(Xor(a, b)) == Xor(PMulB(a), PMulB(b))
    ensures PMulD(Xor(a, b)) == Xor(PMulD(a), PMulD(b))
    ensures PMulE(Xor(a, b)) == Xor(PMulE(a), PMulE(b))
  {
    hide XTime, Xor;
    var a2, b2 := XTime(a), XTime(b);
    var a4, b4 := XTime(a2), XTime(b2);
    var a8, b8 := XTime(a4), XTime(b4);
    XTimeLinear(a, b);
    XTimeLinear(a2, b2);
    XTimeLinear(a4, b4);
    Exchange(a8, b8, a, b);
    Exchange(a8, b8, a2, b2);
    Exchange(a8, b8, a4, b4);
    Exchange(Xor(a8, a2), Xor(b8, b2), a, b);
    Exchange(Xor(a8, a4), Xor(b8, b4), a, b);
    Exchange(Xor(a8, a4), Xor(b8, b4), a2, b2);
  }

  lemma XTimeOfSum(a: Byte, b: Byte, c: Byte, d: Byte)
    ensures XTime(Sum(a, b, c, d)) == Sum(XTime(a), XTime(b), XTime(c), XTime(d))
    ensures Times3(Sum(a, b, c, d)) == Sum(Times3(a), Times3(b), Times3(c), Times3(d))
  {
    hide XTime, Xor;
    XTimeLinear(Xor(a, b), Xor(c, d));
    XTimeLinear(a, b);
    XTimeLinear(c, d);
    Exchange(Xor(XTime(a), XTime(b)), Xor(XTime(c), XTime(d)), Xor(a, b), Xor(c, d));
    Exchange(XTime(a), XTime(b), a, b);
    Exchange(XTime(c), XTime(d), c, d);
  }

  lemma PMulOfSum(a: Byte, b: Byte, c: Byte, d: Byte)
    ensures PMul9(Sum(a, b, c, d)) == Sum(PMul9(a), PMul9(b), PMul9(c), PMul9(d))
    ensures PMulB(Sum(a, b, c, d)) == Sum(PMulB(a), PMulB(b), PMulB(c), PMulB(d))
    ensures PMulD(Sum(a, b, c, d)) == Sum(PMulD(a), PMulD(b), PMulD(c), PMulD(d))
    ensures PMulE(Sum(a, b, c, d)) == Sum(PMulE(a), PMulE(b), PMulE(c), PMulE(d))
  {
    hide Xor, PMul9, PMulB, PMulD, PMulE;
    PMulLinear(Xor(a, b), Xor(c, d));
    PMulLinear(a, b);
    PMulLinear(c, d);
  }

  lemma MaskedLinear(c: Byte, d: Byte, mask: Byte, term: Byte)
    requires mask in {0x01, 0x02, 0x04, 0x08, 0x10, 0x20, 0x40, 0x80}
    ensures Masked(Xor(c, d), mask, term) == Xor(Masked(c, mask, term), Masked(d, mask, term))
  {
  }

  lemma TimesLinear(c: Byte, d: Byte, b: Byte)
    ensures Times(Xor(c, d), b) == Xor(Times(c, b), Times(d, b))
  {
    hide XTime, Xor, Masked;
    var b1 := XTime(b); var b2 := XTime(b1); var b3 := XTime(b2); var b4 := XTime(b3);
    var b5 := XTime(b4); var b6 := XTime(b5); var b7 := XTime(b6);
    MaskedLinear(c, d, 0x01, b); MaskedLinear(c, d, 0x02, b1);
    MaskedLinear(c, d, 0x04, b2); MaskedLinear(c, d, 0x08, b3);
    MaskedLinear(c, d, 0x10, b4); MaskedLinear(c, d, 0x20, b5);
    MaskedLinear(c, d, 0x40, b6); MaskedLinear(c, d, 0x80, b7);
    ExchangeSum(Masked(c, 0x01, b), Masked(d, 0x01, b), Masked(c, 0x02, b1), Masked(d, 0x02, b1),
                Masked(c, 0x04, b2), Masked(d, 0x04, b2), Masked(c, 0x08, b3), Masked(d, 0x08, b3));
    ExchangeSum(Masked(c, 0x10, b4), Masked(d, 0x10, b4), Masked(c, 0x20, b5), Masked(d, 0x20, b5),
                Masked(c, 0x40, b6), Masked(d, 0x40, b6), Masked(c, 0x80, b7), Masked(d, 0x80, b7));
    Exchange(Sum(Masked(c, 0x01, b), Masked(c, 0x02, b1), Masked(c, 0x04, b2), Masked(c, 0x08, b3)),
             Sum(Masked(d, 0x01, b), Masked(d, 0x02, b1), Masked(d, 0x04, b2), Masked(d, 0x08, b3)),
             Sum(Masked(c, 0x10, b4), Masked(c, 0x20, b5), Masked(c, 0x40, b6), Masked(c, 0x80, b7)),
             Sum(Masked(d, 0x10, b4), Masked(d, 0x20, b5), Masked(d, 0x40, b6), Masked(d, 0x80, b7)));
  }

  lemma ExchangeSum(a: Byte, a': Byte, b: Byte, b': Byte, c: Byte, c': Byte, d: Byte, d': Byte)
    ensures Sum(Xor(a, a'), Xor(b, b'), Xor(c, c'), Xor(d, d')) == Xor(Sum(a, b, c, d), Sum(a', b', c', d'))
  {
    hide Xor;
    Exchange(a, a', b, b');
    Exchange(c, c', d, d');
    Exchange(Xor(a, b), Xor(a', b'), Xor(c, d), Xor(c', d'));
  }

  lemma NoZeroDivisorsOdd(a: Byte, b: Byte)
    requires a != 0 && b & 0x01 != 0
    ensures Times(a, b) != 0
  {
  }

  lemma NoZeroDivisorsEven(a: Byte, b: Byte)
    requires a != 0 && b != 0 && b & 0x01 == 0
    ensures Times(a, b) != 0
  {
  }

  /** A product determines its first factor, the second being nonzero. */
  lemma TimesCancels(c: Byte, d: Byte, b: Byte)
    requires b != 0 && Times(c, b) == Times(d, b)
    ensures c == d
  {
    hide Times, Xor;
    TimesLinear(c, d, b);
    XorIsZero(c, d);
    XorIsZero(Times(c, b), Times(d, b));
    if Xor(c, d) != 0 {
      if b & 0x01 == 0 {
        NoZeroDivisorsEven(Xor(c, d), b);
      } else {
        NoZeroDivisorsOdd(Xor(c, d), b);
      }
    }
  }

  lemma XorIsZero(a: Byte, b: Byte)
    ensures Xor(a, b) == 0 <==> a == b
  {
  }

  // ----- the two column matrices are inverse to each other

  /** One output byte of MixColumns for a column read from that byte's row downwards. */
  function MixRow(s0: Byte, s1: Byte, s2: Byte, s3: Byte): Byte {
    Sum(XTime(s0), Times3(s1), s2, s3)
  }

  /** One output byte of InvMixColumns for a column read from that byte's row downwards. */
  function InvMixRow(s0: Byte, s1: Byte, s2: Byte, s3: Byte): Byte {
    Sum(PMulE(s0), PMulB(s1), PMulD(s2), PMul9(s3))
  }

  lemma DiagonalIsOne(s: Byte)
    ensures Sum(PMulE(XTime(s)), PMulB(s), PMulD(s), PMul9(Times3(s))) == s
    ensures Sum(XTime(PMulE(s)), Times3(PMul9(s)), PMulD(s), PMulB(s)) == s
  {
  }

  lemma OffDiagonalIsZero(s: Byte)
    ensures Sum(PMulE(Times3(s)), PMulB(XTime(s)), PMulD(s), PMul9(s)) == 0
    ensures Sum(PMulE(s), PMulB(Times3(s)), PMulD(XTime(s)), PMul9(s)) == 0
    ensures Sum(PMulE(s), PMulB(s), PMulD(Times3(s)), PMul9(XTime(s))) == 0
  {
  }

  lemma OffDiagonalIsZero'(s: Byte)
    ensures Sum(XTime(PMulB(s)), Times3(PMulE(s)), PMul9(s), PMulD(s)) == 0
    ensures Sum(XTime(PMulD(s)), Times3(PMulB(s)), PMulE(s), PMul9(s)) == 0
    ensures Sum(XTime(PMul9(s)), Times3(PMulD(s)), PMulB(s), PMulE(s)) == 0
  {
  }

  lemma InvMixRowOfMixRow(s0: Byte, s1: Byte, s2: Byte, s3: Byte)
    ensures InvMixRow(MixRow(s0, s1, s2, s3), MixRow(s1, s2, s3, s0),
                      MixRow(s2, s3, s0, s1), MixRow(s3, s0, s1, s2)) == s0
  {
    hide XTime, Times3, PMul9, PMulB, PMulD, PMulE, Sum;
    PMulOfSum(XTime(s0), Times3(s1), s2, s3);
    PMulOfSum(XTime(s1), Times3(s2), s3, s0);
    PMulOfSum(XTime(s2), Times3(s3), s0, s1);
    PMulOfSum(XTime(s3), Times3(s0), s1, s2);
    TransposeRotated(PMulE(XTime(s0)), PMulE(Times3(s1)), PMulE(s2), PMulE(s3),
                     PMulB(s0), PMulB(XTime(s1)), PMulB(Times3(s2)), PMulB(s3),
                     PMulD(s0), PMulD(s1), PMulD(XTime(s2)), PMulD(Times3(s3)),
                     PMul9(Times3(s0)), PMul9(s1), PMul9(s2), PMul9(XTime(s3)));
    DiagonalIsOne(s0);
    OffDiagonalIsZero(s1);
    OffDiagonalIsZero(s2);
    OffDiagonalIsZero(s3);
    SumOfZeros(s0);
  }

  lemma MixRowOfInvMixRow(s0: Byte, s1: Byte, s2: Byte, s3: Byte)
    ensures MixRow(InvMixRow(s0, s1, s2, s3), InvMixRow(s1, s2, s3, s0),
                   InvMixRow(s2, s3, s0, s1), InvMixRow(s3, s0, s1, s2)) == s0
  {
    hide XTime, Times3, PMul9, PMulB, PMulD, PMulE, Sum;
    XTimeOfSum(PMulE(s0), PMulB(s1), PMulD(s2), PMul9(s3));
    XTimeOfSum(PMulE(s1), PMulB(s2), PMulD(s3), PMul9(s0));
    TransposeRotated(XTime(PMulE(s0)), XTime(PMulB(s1)), XTime(PMulD(s2)), XTime(PMul9(s3)),
                     Times3(PMul9(s0)), Times3(PMulE(s1)), Times3(PMulB(s2)), Times3(PMulD(s3)),
                     PMulD(s0), PMul9(s1), PMulE(s2), PMulB(s3),
                     PMulB(s0), PMulD(s1), PMul9(s2), PMulE(s3));
    DiagonalIsOne(s0);
    OffDiagonalIsZero'(s1);
    OffDiagonalIsZero'(s2);
    OffDiagonalIsZero'(s3);
    SumOfZeros(s0);
  }
}
