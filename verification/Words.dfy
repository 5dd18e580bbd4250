/** 64-bit machine words as naturals: wrap-around, bitwise AND and XOR, shifts. */
module Words {

  const WORD: nat := 0x1_0000_0000_0000_0000  // 2^64, the size of size_t and uint64_t
  const SIZE_MAX: nat := 0xffff_ffff_ffff_ffff

  function Pow2(k: nat): (p: nat)
    ensures p > 0
  {
    if k == 0 then 1 else 2 * Pow2(k - 1)
  }

  predicate IsPow2(n: nat) {
    n == 1 || (n > 1 && n % 2 == 0 && IsPow2(n / 2))
  }

  function And(a: nat, b: nat): nat {
    if a == 0 || b == 0 then 0 else 2 * And(a / 2, b / 2) + (a % 2) * (b % 2)
  }

  function Xor(a: nat, b: nat): nat
    decreases a + b
  {
    if a == 0 then b
    else if b == 0 then a
    else 2 * Xor(a / 2, b / 2) + (a + b) % 2
  }

  function Shr(a: nat, k: nat): nat {
    if k == 0 then a else Shr(a / 2, k - 1)
  }

  function AddWord(a: nat, b: nat): (r: nat)
    ensures r < WORD
  {
    (a + b) % WORD
  }

  /** Unsigned subtraction: wraps below zero as size_t and Word64 do. */
  function SubWord(a: nat, b: nat): (r: nat)
    ensures r < WORD
  {
    (a - b) % WORD
  }

  function MulWord(a: nat, b: nat): (r: nat)
    ensures r < WORD
  {
    (a * b) % WORD
  }

  /** A product of two sizes, if it is one. */
  method CheckedSize(size: nat, count: nat) returns (fits: bool, total: nat)
    requires size < WORD && count < WORD
    ensures fits <==> size * count < WORD
    ensures fits ==> total == size * count
  {
    if size != 0 {
      QuotientBound(size, count);
      if count > SIZE_MAX / size {
        return false, 0;
      }
    }
    fits, total := true, size * count;
  }

  lemma QuotientBound(size: nat, count: nat)
    requires 0 < size
    ensures count > SIZE_MAX / size <==> size * count > SIZE_MAX
  {
    var q, r := SIZE_MAX / size, SIZE_MAX % size;
    assert SIZE_MAX == q * size + r && r < size;
    if count <= q {
      Multiply(size, count, q);
    } else {
      Multiply(size, q + 1, count);
    }
  }

  lemma Multiply(size: nat, a: nat, b: nat)
    requires a <= b
    ensures size * a <= size * b
  {
  }

  // ---- powers of two and masks

  lemma Pow2Sum(j: nat, k: nat)
    ensures Pow2(j + k) == Pow2(j) * Pow2(k)
  {
    if j > 0 {
      Pow2Sum(j - 1, k);
    }
  }

  lemma {:induction false} Pow2IsPow2(k: nat)
    ensures IsPow2(Pow2(k))
  {
    if k > 0 {
      Pow2IsPow2(k - 1);
    }
  }

  lemma WordIsPow2()
    ensures WORD == Pow2(64)
  {
    assert Pow2(8) == 256;
    Pow2Sum(8, 8);
    Pow2Sum(16, 16);
    Pow2Sum(32, 32);
  }

  /** Masking with `n - 1` is reduction modulo `n`, for every power of two. */
  lemma {:induction false} MaskIsModulo(x: nat, n: nat)
    requires IsPow2(n)
    ensures And(x, n - 1) == x % n
    decreases n
  {
    if n > 1 {
      MaskIsModulo(x / 2, n / 2);
      MaskStep(x, n / 2);
    }
  }

  lemma MaskStep(x: nat, h: nat)
    requires h > 0 && And(x / 2, h - 1) == x / 2 % h
    ensures And(x, 2 * h - 1) == x % (2 * h)
  {
    var m := 2 * h - 1;
    assert m / 2 == h - 1 && m % 2 == 1;
    assert And(x, m) == 2 * And(x / 2, m / 2) + x % 2;
    HalveModulo(x, h);
  }

  lemma HalveModulo(x: nat, h: nat)
    requires h > 0
    ensures x % (2 * h) == 2 * (x / 2 % h) + x % 2
  {
    var q, r := x / 2 / h, x / 2 % h;
    assert x == 2 * (q * h + r) + x % 2;
    assert x == q * (2 * h) + (2 * r + x % 2);
    ModuloUnique(x, 2 * h, q, 2 * r + x % 2);
  }

  lemma ModuloUnique(x: int, m: int, q: int, r: int)
    requires x == q * m + r && 0 <= r < m
    ensures x % m == r && x / m == q
  {
    var d := x / m - q;
    assert d * m == r - x % m by {
      assert x == (x / m) * m + x % m;
      assert d * m == (x / m) * m - q * m;
    }
    Magnitude(d, m);
  }

  lemma Magnitude(d: int, m: int)
    requires m > 0
    ensures d >= 1 ==> d * m >= m
    ensures d <= -1 ==> d * m <= -m
  {
  }

  /** The test `(n & (n - 1)) == 0` accepts exactly the powers of two. */
  lemma {:induction false} PowerOfTwoTest(n: nat)
    requires n > 0
    ensures And(n, n - 1) == 0 <==> IsPow2(n)
  {
    if n % 2 == 1 {
      assert (n - 1) / 2 == n / 2;
      AndSelf(n / 2);
    } else {
      PowerOfTwoTest(n / 2);
      assert (n - 1) / 2 == n / 2 - 1;
    }
  }

  lemma {:induction false} AndSelf(a: nat)
    ensures And(a, a) == a
  {
    if a > 0 {
      AndSelf(a / 2);
      var bit := a % 2;
      assert And(a, a) == 2 * And(a / 2, a / 2) + bit * bit;
      assert bit == 0 || bit == 1;
    }
  }

  /** Of two powers of two, the smaller divides the larger. */
  lemma {:induction false} SmallerDivides(n: nat, m: nat)
    requires IsPow2(n) && IsPow2(m) && n <= m
    ensures m % n == 0
    decreases n
  {
    if n > 1 {
      SmallerDivides(n / 2, m / 2);
      HalveModulo(m, n / 2);
    }
  }

  /** A counter that wraps at 2^64 keeps its residue modulo every smaller power of two. */
  lemma WrapKeepsSlot(t: nat, n: nat)
    requires IsPow2(n) && n <= WORD
    ensures t % WORD % n == t % n
  {
    WordIsPow2();
    Pow2IsPow2(64);
    var w := Pow2(64);
    SmallerDivides(n, w);
    ModuloOfModulo(t, w, n);
  }

  lemma ModuloOfModulo(t: nat, m: nat, n: nat)
    requires 0 < n && 0 < m && m % n == 0
    ensures t % m % n == t % n
  {
    var k, q, r := m / n, t / m, t % m;
    assert m == k * n && t == q * m + r && r == (r / n) * n + r % n;
    assert q * (k * n) == (q * k) * n;
    assert (q * k + r / n) * n == (q * k) * n + (r / n) * n;
    ModuloUnique(t, n, q * k + r / n, r % n);
  }

  // ---- exclusive or

  lemma {:induction false} XorComm(a: nat, b: nat)
    ensures Xor(a, b) == Xor(b, a)
    decreases a + b
  {
    if a > 0 && b > 0 {
      XorComm(a / 2, b / 2);
    }
  }

  lemma XorHalf(a: nat, b: nat)
    ensures Xor(a, b) / 2 == Xor(a / 2, b / 2)
    ensures Xor(a, b) % 2 == (a + b) % 2
  {
  }

  lemma {:induction false} XorSelf(a: nat)
    ensures Xor(a, a) == 0
  {
    if a > 0 {
      XorSelf(a / 2);
    }
  }

  lemma SumParity(x: nat, a: nat, b: nat, c: nat)
    requires x % 2 == (a + b) % 2
    ensures (x + c) % 2 == (a + b + c) % 2
  {
  }

  lemma SameHalves(x: nat, y: nat)
    requires x / 2 == y / 2 && x % 2 == y % 2
    ensures x == y
  {
  }

  lemma {:induction false} XorAssoc(a: nat, b: nat, c: nat)
    ensures Xor(Xor(a, b), c) == Xor(a, Xor(b, c))
    decreases a + b + c
  {
    if a > 0 && b > 0 && c > 0 {
      XorAssoc(a / 2, b / 2, c / 2);
      XorAssocStep(a, b, c, Xor(a, b), Xor(b, c), Xor(Xor(a, b), c), Xor(a, Xor(b, c)));
    }
  }

  lemma XorAssocStep(a: nat, b: nat, c: nat, ab: nat, bc: nat, l: nat, r: nat)
    requires ab == Xor(a, b) && bc == Xor(b, c) && l == Xor(ab, c) && r == Xor(a, bc)
    requires Xor(Xor(a / 2, b / 2), c / 2) == Xor(a / 2, Xor(b / 2, c / 2))
    ensures l == r
  {
    XorHalf(a, b);
    XorHalf(b, c);
    XorHalf(ab, c);
    XorHalf(a, bc);
    SumParity(ab, a, b, c);
    SumParity(bc, b, c, a);
    assert l % 2 == r % 2;
    SameHalves(l, r);
  }

  /** Xor of two values that fit in k bits fits in k bits. */
  lemma {:induction false} XorBound(a: nat, b: nat, k: nat)
    requires a < Pow2(k) && b < Pow2(k)
    ensures Xor(a, b) < Pow2(k)
  {
    if a > 0 && b > 0 {
      XorBound(a / 2, b / 2, k - 1);
    }
  }

  lemma {:induction false} ShrXor(a: nat, b: nat, k: nat)
    ensures Shr(Xor(a, b), k) == Xor(Shr(a, k), Shr(b, k))
    decreases k
  {
    if k > 0 {
      XorHalf(a, b);
      ShrXor(a / 2, b / 2, k - 1);
    }
  }

  lemma {:induction false} ShrShr(a: nat, j: nat, k: nat)
    ensures Shr(Shr(a, j), k) == Shr(a, j + k)
    decreases j
  {
    if j > 0 {
      ShrShr(a / 2, j - 1, k);
    }
  }

  lemma {:induction false} ShrVanishes(a: nat, k: nat)
    requires a < Pow2(k)
    ensures Shr(a, k) == 0
    decreases k
  {
    if k > 0 {
      ShrVanishes(a / 2, k - 1);
    }
  }

  lemma {:induction false} ShrShrinks(a: nat, k: nat)
    ensures Shr(a, k) <= a
    decreases k
  {
    if k > 0 {
      ShrShrinks(a / 2, k - 1);
    }
  }
}
