/** `aligned_size` of `util.h`, with its mask, in the 32-bit arithmetic of `size_t`. */
module Alignment {
  const SIZES: nat := 0x1_0000_0000

  type Size = n: int | 0 <= n < SIZES

  /** Bitwise and. */
  function And(x: nat, y: nat): nat {
    if x == 0 || y == 0 then 0 else 2 * And(x / 2, y / 2) + (x % 2) * (y % 2)
  }

  function Not(x: Size): Size {
    SIZES - 1 - x
  }

  function Pow2(n: nat): (m: nat)
    ensures m >= 1
  {
    if n == 0 then 1 else 2 * Pow2(n - 1)
  }

  lemma {:induction false} Pow2Grows(k: nat, n: nat)
    requires k <= n
    ensures Pow2(k) <= Pow2(n)
  {
    if k < n {
      Pow2Grows(k, n - 1);
    }
  }

  lemma {:induction false} AndOnes(x: nat, n: nat)
    requires x < Pow2(n)
    ensures And(x, Pow2(n) - 1) == x
  {
    if x > 0 {
      AndOnes(x / 2, n - 1);
    }
  }

  lemma AndEven(x: nat, y: nat)
    ensures And(x, 2 * y) == 2 * And(x / 2, y)
  {
  }

  /** A mask without its low k bits drops the remainder by 2^k. */
  lemma {:induction false} AndMask(x: nat, k: nat, n: nat)
    requires k <= n && x < Pow2(n)
    ensures Pow2(k) <= Pow2(n) && And(x, Pow2(n) - Pow2(k)) == x - x % Pow2(k)
  {
    Pow2Grows(k, n);
    if k == 0 {
      AndOnes(x, n);
    } else {
      hide And;
      var p, q := Pow2(k - 1), Pow2(n - 1);
      assert Pow2(n) == 2 * q && Pow2(k) == 2 * p;
      hide Pow2;
      AndMask(x / 2, k - 1, n - 1);
      AndEven(x, q - p);
      HalfRemainder(x, p);
    }
  }

  lemma HalfRemainder(x: nat, m: nat)
    requires m > 0
    ensures x % (2 * m) == 2 * (x / 2 % m) + x % 2
  {
    var q := x / 2 / m;
    assert x / 2 == q * m + x / 2 % m;
    var r := 2 * (x / 2 % m) + x % 2;
    assert x == q * (2 * m) + r && 0 <= r < 2 * m;
    RemainderOf(x, q, 2 * m, r);
  }

  lemma Multiplies(i: int, j: int, m: nat)
    requires i <= j
    ensures i * m <= j * m
  {
  }

  lemma RemainderOf(x: nat, q: nat, m: nat, r: nat)
    requires x == q * m + r && r < m
    ensures x % m == r && x / m == q
  {
    var d := x / m - q;
    assert x == x / m * m + x % m;
    assert d * m == r - x % m;
    if d >= 1 {
      Multiplies(1, d, m);
    } else if d <= -1 {
      Multiplies(d, -1, m);
    }
  }

  /** `aligned_size`. */
  function AlignedSize(size: Size, alignment: Size): nat
    requires alignment > 0
  {
    And((size + alignment - 1) % SIZES, Not(alignment - 1))
  }

  lemma SizesIsPow2()
    ensures Pow2(32) == SIZES
  {
    assert Pow2(8) == 256;
    assert Pow2(16) == 256 * Pow2(8);
    assert Pow2(24) == 256 * Pow2(16);
    assert Pow2(32) == 256 * Pow2(24);
  }

  lemma AlignedDropsRemainder(size: Size, k: nat)
    requires k < 32
    ensures Pow2(k) < SIZES
    ensures var x := (size + Pow2(k) - 1) % SIZES; AlignedSize(size, Pow2(k)) == x - x % Pow2(k)
  {
    SizesIsPow2();
    Pow2Grows(k, 31);
    assert Pow2(32) == 2 * Pow2(31);
    AndMask((size + Pow2(k) - 1) % SIZES, k, 32);
  }

  predicate LeastMultiple(size: nat, alignment: nat, a: nat)
    requires alignment > 0
  {
    size <= a && a % alignment == 0 && forall m: nat :: size <= m && m % alignment == 0 ==> a <= m
  }

  lemma RoundsUp(size: nat, m: nat)
    requires m > 0
    ensures var x := size + m - 1; LeastMultiple(size, m, x - x % m)
  {
    var x := size + m - 1;
    var q := x / m;
    assert x == q * m + x % m;
    RemainderOf(q * m, q, m, 0);
    forall n: nat | size <= n && n % m == 0
      ensures q * m <= n
    {
      var j := n / m;
      assert n == j * m;
      if j < q {
        Multiplies(j, q - 1, m);
      } else {
        Multiplies(q, j, m);
      }
    }
  }

  /** For every power of two below the width of a size, it is the least multiple not below the size
      if and only if adding the alignment less one does not wrap around. */
  lemma AlignedIsLeastIff(size: Size, k: nat)
    requires k < 32
    ensures Pow2(k) < SIZES
    ensures LeastMultiple(size, Pow2(k), AlignedSize(size, Pow2(k))) <==> size <= SIZES - Pow2(k)
  {
    AlignedDropsRemainder(size, k);
    var p := Pow2(k);
    hide AlignedSize, Pow2;
    RoundsUpUnlessWrapped(size, p);
  }

  lemma RoundsUpUnlessWrapped(size: Size, m: Size)
    requires m > 0
    ensures var x := (size + m - 1) % SIZES; LeastMultiple(size, m, x - x % m) <==> size <= SIZES - m
  {
    var x := (size + m - 1) % SIZES;
    if size <= SIZES - m {
      RoundsUp(size, m);
      hide LeastMultiple;
      assert x == size + m - 1;
    } else {
      assert x == size + m - 1 - SIZES;
      assert x - x % m <= x < size;
    }
  }
}
