/** Machine words as naturals: exclusive or, right shift and wrapping multiplication. */
module Words {
  function Pow2(n: nat): (p: nat)
    ensures p > 0
  {
    if n == 0 then 1 else 2 * Pow2(n - 1)
  }

  lemma Pow2Up(n: nat)
    ensures Pow2(n + 8) == 0x100 * Pow2(n)
  {
    assert Pow2(n + 2) == 4 * Pow2(n) && Pow2(n + 4) == 4 * Pow2(n + 2);
    assert Pow2(n + 6) == 4 * Pow2(n + 4) && Pow2(n + 8) == 4 * Pow2(n + 6);
  }

  lemma Widths()
    ensures Pow2(8) == 0x100 && Pow2(32) == 0x1_0000_0000 && Pow2(64) == 0x1_0000_0000_0000_0000
  {
    var n: nat := 0;
    while n < 64
      invariant n <= 64 && n % 8 == 0
      invariant n == 0 ==> Pow2(n) == 1
      invariant n >= 8 ==> Pow2(8) == 0x100
      invariant n >= 32 ==> Pow2(32) == 0x1_0000_0000
      invariant Pow2(n) == [1, 0x100, 0x1_0000, 0x100_0000, 0x1_0000_0000, 0x100_0000_0000,
                            0x1_0000_0000_0000, 0x100_0000_0000_0000, 0x1_0000_0000_0000_0000][n / 8]
    {
      Pow2Up(n);
      n := n + 8;
    }
  }

  function Xor(a: nat, b: nat): nat
    decreases a + b
  {
    if a == 0 && b == 0 then 0 else (a % 2 + b % 2) % 2 + 2 * Xor(a / 2, b / 2)
  }

  /** Right shift, one bit at a time. */
  function Shr(a: nat, k: nat): nat
    decreases k
  {
    if k == 0 then a else Shr(a / 2, k - 1)
  }

  lemma XorBits(a: nat, b: nat)
    ensures Xor(a, b) / 2 == Xor(a / 2, b / 2) && Xor(a, b) % 2 == (a % 2 + b % 2) % 2
  {
  }

  lemma Parity(p: nat, q: nat)
    requires p < 2 && q < 2
    ensures ((p + q) % 2 + q) % 2 == p
  {
  }

  lemma Halves(a: nat, b: nat)
    requires a / 2 == b / 2 && a % 2 == b % 2
    ensures a == b
  {
  }

  lemma {:induction false} XorCancel(a: nat, b: nat)
    ensures Xor(Xor(a, b), b) == a
    decreases a + b
  {
    if a != 0 || b != 0 {
      var w := Xor(a, b);
      XorBits(a, b);
      XorBits(w, b);
      XorCancel(a / 2, b / 2);
      assert Xor(w, b) / 2 == a / 2;
      assert Xor(w, b) % 2 == a % 2 by { Parity(a % 2, b % 2); }
      Halves(Xor(w, b), a);
    }
  }

  lemma {:induction false} ShrZero(k: nat)
    ensures Shr(0, k) == 0
  {
    if k > 0 {
      ShrZero(k - 1);
    }
  }

  /** Exclusive or with its own low bits clears them. */
  lemma {:induction false} XorLow(a: nat, k: nat, low: nat)
    requires low == a % Pow2(k)
    ensures Xor(a, low) == a - low
    decreases k
  {
    if k == 0 {
      XorNone(a);
    } else {
      LowBits(a, k, low);
      XorLow(a / 2, k - 1, low / 2);
      Cleared(a, low);
    }
  }

  lemma Cleared(a: nat, low: nat)
    requires a % 2 == low % 2 && Xor(a / 2, low / 2) == a / 2 - low / 2
    ensures Xor(a, low) == a - low
  {
    XorBits(a, low);
    Apart(Xor(a, low), a, low);
  }

  lemma Apart(x: nat, a: nat, low: nat)
    requires x / 2 == a / 2 - low / 2 && x % 2 == (a % 2 + low % 2) % 2 && a % 2 == low % 2
    ensures x == a - low
  {
    assert x % 2 == 0;
  }

  lemma LowBits(a: nat, k: nat, low: nat)
    requires k > 0 && low == a % Pow2(k)
    ensures low / 2 == a / 2 % Pow2(k - 1) && low % 2 == a % 2
  {
    var p, h := Pow2(k - 1), a / 2;
    var q, r := h / p, h % p;
    assert a == (2 * r + a % 2) + q * (2 * p);
    ModUnique(2 * r + a % 2, q, 2 * p);
  }

  lemma {:induction false} XorNone(a: nat)
    ensures Xor(a, 0) == a
  {
    if a > 0 {
      XorNone(a / 2);
    }
  }

  /** Exclusive or with the same word loses nothing. */
  lemma XorInjective(a: nat, c: nat, b: nat)
    requires Xor(a, b) == Xor(c, b)
    ensures a == c
  {
    XorCancel(a, b);
    XorCancel(c, b);
  }

  lemma {:induction false} XorSwap(a: nat, b: nat)
    ensures Xor(a, b) == Xor(b, a)
    decreases a + b
  {
    if a != 0 || b != 0 {
      XorSwap(a / 2, b / 2);
    }
  }

  lemma {:induction false} ShrXor(a: nat, b: nat, k: nat)
    ensures Shr(Xor(a, b), k) == Xor(Shr(a, k), Shr(b, k))
    decreases k
  {
    if k > 0 {
      XorBits(a, b);
      ShrXor(a / 2, b / 2, k - 1);
    }
  }

  lemma {:induction false} ShrFits(a: nat, k: nat)
    ensures Shr(a, k) == 0 <==> a < Pow2(k)
    decreases k
  {
    if k > 0 {
      ShrFits(a / 2, k - 1);
    }
  }

  lemma {:induction false} ShrSmaller(a: nat, k: nat)
    ensures Shr(a, k) <= a && (k > 0 && a > 0 ==> Shr(a, k) < a)
    decreases k
  {
    if k > 0 {
      ShrSmaller(a / 2, k - 1);
    }
  }

  /** Words of one width are closed under exclusive or. */
  lemma XorFits(a: nat, b: nat, k: nat)
    requires a < Pow2(k) && b < Pow2(k)
    ensures Xor(a, b) < Pow2(k)
  {
    ShrFits(a, k);
    ShrFits(b, k);
    ShrXor(a, b, k);
    ShrFits(Xor(a, b), k);
  }

  function XorShift(a: nat, k: nat): nat {
    Xor(a, Shr(a, k))
  }

  /** The word whose xor-shift is `v`: the upper bits come through and give the lower ones back. */
  function Unshift(v: nat, k: nat): nat
    requires k > 0
    decreases v
  {
    if v == 0 then 0
    else
      ShrSmaller(v, k);
      Xor(v, Unshift(Shr(v, k), k))
  }

  lemma {:induction false} XorShiftBack(a: nat, k: nat)
    requires k > 0
    ensures Unshift(XorShift(a, k), k) == a
  {
    if a == 0 {
      ShrZero(k);
    } else {
      var b, v := Shr(a, k), XorShift(a, k);
      ShrSmaller(a, k);
      XorShiftBack(b, k);
      ShrXor(a, b, k);
      assert Shr(v, k) == XorShift(b, k);
      XorCancel(a, b);
      if v == 0 {
        XorNone(b);
        XorSwap(0, b);
      }
    }
  }

  lemma XorShiftFits(a: nat, k: nat, width: nat)
    requires a < Pow2(width)
    ensures XorShift(a, k) < Pow2(width)
  {
    ShrSmaller(a, k);
    XorFits(a, Shr(a, k), width);
  }

  lemma MultipleGrows(d: int, n: nat)
    ensures d >= 1 ==> d * n >= n
    ensures d <= -1 ==> d * n + n <= 0
  {
    if d <= -1 { assert (-d - 1) * n >= 0; }
  }

  lemma ModUnique(x: nat, j: int, n: nat)
    requires n > 0 && x < n && x + j * n >= 0
    ensures (x + j * n) % n == x
  {
    var y := x + j * n;
    var q := y / n;
    assert y == q * n + y % n;
    assert (q - j) * n == x - y % n;
    MultipleGrows(q - j, n);
  }

  /** Multiplying by an invertible constant and wrapping can be undone. */
  lemma MulUndo(x: nat, m: nat, inverse: nat, k: nat, n: nat)
    requires n > 0 && x < n && m * inverse == 1 + k * n
    ensures (x * m % n) * inverse % n == x
  {
    var q := x * m / n;
    var r := x * m % n;
    assert x * m == q * n + r;
    calc {
      r * inverse;
      (x * m - q * n) * inverse;
      x * (m * inverse) - q * inverse * n;
      x * (1 + k * n) - q * inverse * n;
      x + (x * k - q * inverse) * n;
    }
    ModUnique(x, x * k - q * inverse, n);
  }

  lemma MulInjective(x: nat, y: nat, m: nat, inverse: nat, k: nat, n: nat)
    requires n > 0 && x < n && y < n && m * inverse == 1 + k * n
    requires x * m % n == y * m % n
    ensures x == y
  {
    MulUndo(x, m, inverse, k, n);
    MulUndo(y, m, inverse, k, n);
  }
}
