/** Powers of two, binary logarithm and bit reversal of the complex index space
    that the in-place transform reorders. */
module Bits {

  function Pow2(k: nat): (r: nat)
    ensures r >= 1
  {
    if k == 0 then 1 else 2 * Pow2(k - 1)
  }

  /** Number of halvings that bring n down to 1 (the binary logarithm of a power of two). */
  function Log2(n: nat): nat
  {
    if n <= 1 then 0 else 1 + Log2(n / 2)
  }

  /** The transform length must be a power of two. */
  predicate IsPowerOfTwo(n: nat)
  {
    n >= 1 && Pow2(Log2(n)) == n
  }

  lemma {:induction false} Log2OfPow2(k: nat)
    ensures Log2(Pow2(k)) == k
  {
    if k > 0 {
      Log2OfPow2(k - 1);
      assert Pow2(k) / 2 == Pow2(k - 1);
    }
  }

  lemma {:induction false} Pow2Add(a: nat, b: nat)
    ensures Pow2(a + b) == Pow2(a) * Pow2(b)
  {
    if a > 0 {
      Pow2Add(a - 1, b);
      assert Pow2(a + b) == 2 * Pow2(a - 1 + b);
    }
  }

  lemma Pow2Monotone(a: nat, b: nat)
    requires a <= b
    ensures Pow2(a) <= Pow2(b)
  {
    Pow2Add(a, b - a);
  }

  /** Twice a power of two is a power of two. */
  lemma DoublePowerOfTwo(n: nat)
    requires IsPowerOfTwo(n)
    ensures IsPowerOfTwo(2 * n) && Log2(2 * n) == Log2(n) + 1
  {
    var k := Log2(n);
    assert 2 * n / 2 == n;
    assert Log2(2 * n) == 1 + Log2(n);
    assert Pow2(k + 1) == 2 * n;
  }

  /** A smaller power of two, doubled, divides a larger one. */
  lemma PowerOfTwoDivides(a: nat, b: nat)
    requires IsPowerOfTwo(a) && IsPowerOfTwo(b) && a < b
    ensures b % (2 * a) == 0
  {
    var x, y := Log2(a), Log2(b);
    if y <= x {
      Pow2Monotone(y, x);
      assert false;
    }
    Pow2Divides(x, y);
  }

  /** 2^(x+1) divides 2^y for x < y. */
  lemma Pow2Divides(x: nat, y: nat)
    requires x < y
    ensures Pow2(y) % (2 * Pow2(x)) == 0
  {
    var e := y - x - 1;
    Pow2Add(x + 1, e);
    assert x + 1 + e == y;
    var p, c := Pow2(x + 1), Pow2(e);
    assert Pow2(y) == p * c;
    assert p == 2 * Pow2(x);
    DivModUnique(p * c, p, c, 0);
  }

  /** Euclidean division is determined by quotient and remainder. */
  lemma DivModUnique(x: int, d: int, q: int, r: int)
    requires d > 0 && 0 <= r < d && x == q * d + r
    ensures x / d == q && x % d == r
  {
    var k := q - x / d;
    assert k * d == x % d - r;
    MulBounds(k, d);
  }

  lemma MulBounds(k: int, d: int)
    ensures d > 0 && k >= 1 ==> k * d >= d
    ensures d > 0 && k <= -1 ==> k * d <= -d
  {
  }

  /** Adding c to x moves the remainder by c when it stays below d. */
  lemma ModAdd(x: int, d: int, c: int)
    requires d > 0 && 0 <= x % d + c < d
    ensures (x + c) % d == x % d + c && (x + c) / d == x / d
  {
    DivModUnique(x + c, d, x / d, x % d + c);
  }

  /** Adding the modulus leaves the remainder unchanged. */
  lemma ModAddModulus(x: int, d: int)
    requires d > 0
    ensures (x + d) % d == x % d && (x + d) / d == x / d + 1
  {
    DivModUnique(x + d, d, x / d + 1, x % d);
  }

  /** The remainder of an even number by an even modulus is twice a remainder. */
  lemma ModOfEven(x: nat, e: nat)
    requires e >= 1 && x % 2 == 0
    ensures x % (2 * e) == 2 * ((x / 2) % e)
  {
    var h := x / 2;
    var q, r := h / e, h % e;
    assert h == q * e + r;
    assert x == q * (2 * e) + 2 * r;
    DivModUnique(x, 2 * e, q, 2 * r);
  }

  /** A remainder is at most the number divided. */
  lemma {:induction false} ModAtMost(x: nat, d: nat)
    requires d >= 1
    ensures x % d <= x
    decreases x
  {
    if x < d {
      DivModUnique(x, d, 0, x);
    } else {
      ModAtMost(x - d, d);
      ModAddModulus(x - d, d);
    }
  }

  /** Multiplying by a natural number keeps the order. */
  lemma {:induction false} MulMonotone(a: int, b: int, d: nat)
    requires a <= b
    ensures a * d <= b * d
    decreases d
  {
    if d > 0 {
      MulMonotone(a, b, d - 1);
      assert a * d == a * (d - 1) + a && b * d == b * (d - 1) + b;
    }
  }

  /** Reverses the lowest `width` bits of `q`: bit t of q becomes bit width-1-t. */
  function Rev(width: nat, q: nat): (r: nat)
    ensures r < Pow2(width)
  {
    if width == 0 then 0
    else (if q % 2 == 1 then Pow2(width - 1) else 0) + Rev(width - 1, q / 2)
  }

  lemma {:induction false} RevOfZero(width: nat)
    ensures Rev(width, 0) == 0
  {
    if width > 0 {
      RevOfZero(width - 1);
    }
  }

  /** Reversal seen from the top: the highest bit of q becomes the lowest bit of Rev(width, q). */
  lemma {:induction false} RevTopBit(width: nat, x: nat, top: bool)
    requires width >= 1 && x < Pow2(width - 1)
    ensures Rev(width, x + (if top then Pow2(width - 1) else 0))
         == 2 * Rev(width - 1, x) + (if top then 1 else 0)
  {
    var q := x + (if top then Pow2(width - 1) else 0);
    if width >= 2 {
      var half := Pow2(width - 2);
      var t := if top then half else 0;
      assert q == x + 2 * t;
      assert q % 2 == x % 2 && q / 2 == x / 2 + t;
      RevTopBit(width - 1, x / 2, top);
    }
  }

  /** Bit reversal is its own inverse on [0, 2^width). */
  lemma {:induction false} RevInvolutive(width: nat, q: nat)
    requires q < Pow2(width)
    ensures Rev(width, Rev(width, q)) == q
  {
    if width > 0 {
      var low := Rev(width - 1, q / 2);
      RevTopBit(width, low, q % 2 == 1);
      RevInvolutive(width - 1, q / 2);
    }
  }

  /** x shifted left by c bits, written so that every step is linear. */
  function Shl(x: nat, c: nat): nat
    decreases c
  {
    if c == 0 then x else Shl(2 * x, c - 1)
  }

  lemma {:induction false} ShlIsProduct(x: nat, c: nat)
    ensures Shl(x, c) == x * Pow2(c)
    decreases c
  {
    if c > 0 {
      ShlIsProduct(2 * x, c - 1);
      assert 2 * x * Pow2(c - 1) == x * Pow2(c);
    }
  }

  /** Trailing zero bits of the argument become leading zero bits of the result. */
  lemma {:induction false} RevShift(width: nat, c: nat, x: nat)
    requires c <= width
    ensures Rev(width, Shl(x, c)) == Rev(width - c, x)
    decreases c
  {
    if c > 0 {
      RevShift(width, c - 1, 2 * x);
    }
  }

  /** The reverse-order increment: if the low c bits of q are ones and bit c is zero,
      Rev(width, q + 1) clears the top c bits of Rev(width, q) and sets the next one.
      Here qs is q shifted right by c, written through q + 1 == Shl(qs + 1, c). */
  lemma RevIncrement(width: nat, c: nat, q: nat, qs: nat)
    requires c < width && q + 1 == Shl(qs + 1, c) && qs % 2 == 0
    ensures Rev(width, q + 1) == Rev(width - c, qs) + Pow2(width - c - 1)
  {
    RevShift(width, c, qs + 1);
    assert (qs + 1) / 2 == qs / 2;
  }
}
