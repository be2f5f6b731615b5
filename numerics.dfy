/** Integer facts the generators and the cipher rest on: powers of ten and two,
    Euclidean division by a positive divisor, and Python's `^` on non-negative
    integers. */
module Numerics {

  /** A keystream byte, the range of `int(x * 255)` for a normalised `x`. */
  type Byte = b: int | 0 <= b < 256

  /** A Unicode code point: what `ord` returns and `chr` accepts. */
  type CodePoint = c: int | 0 <= c < 0x11_0000

  function Pow10(n: nat): (p: nat)
    ensures p >= 1
    ensures n > 0 ==> p >= 10
  {
    if n == 0 then 1 else 10 * Pow10(n - 1)
  }

  function Pow2(n: nat): (p: nat)
    ensures p >= 1
  {
    if n == 0 then 1 else 2 * Pow2(n - 1)
  }

  lemma MulMonotone(a: int, b: int, c: nat)
    requires a <= b
    ensures a * c <= b * c
  {
    assert b * c - a * c == (b - a) * c;
  }

  lemma LessOfMulLess(a: int, b: int, p: int)
    requires p > 0 && a * p < b * p
    ensures a < b
  {
    assert (b - a) * p == b * p - a * p;
  }

  /** Euclidean division by a positive divisor is determined by quotient and remainder. */
  lemma DivModUnique(n: int, p: int, q: int, r: int)
    requires p > 0 && 0 <= r < p && n == q * p + r
    ensures n / p == q && n % p == r
  {
    var q', r' := n / p, n % p;
    assert n == q' * p + r' && 0 <= r' < p;
    var t := q' - q;
    assert t * p == r - r' by {
      assert q' * p - q * p == t * p;
    }
  }

  /** Dividing by `p` and then by `p'` is dividing by `p * p'`. */
  lemma DivDiv(n: nat, p: nat, p': nat)
    requires p > 0 && p' > 0
    ensures (n / p) / p' == n / (p * p')
  {
    var q := (n / p) / p';
    var r := (n / p) % p';
    var s := n % p;
    assert n / p == q * p' + r;
    assert n == (q * p' + r) * p + s;
    assert n == q * (p * p') + (r * p + s) by {
      assert (q * p' + r) * p == q * (p * p') + r * p;
    }
    assert r * p + s < p * p' by {
      assert r <= p' - 1;
      assert r * p <= (p' - 1) * p;
    }
    DivModUnique(n, p * p', q, r * p + s);
  }

  /** Python's `a ^ b` on non-negative integers, one bit at a time from the least
      significant end. */
  function Xor(a: nat, b: nat): nat
    decreases a + b
  {
    if a == 0 && b == 0 then 0 else 2 * Xor(a / 2, b / 2) + (if a % 2 == b % 2 then 0 else 1)
  }

  lemma {:induction false} XorZero(a: nat)
    ensures Xor(a, 0) == a
  {
    if a != 0 {
      XorZero(a / 2);
    }
  }

  /** The lowest bit of `a ^ b` and the bits above it. */
  lemma XorBits(a: nat, b: nat)
    ensures Xor(a, b) / 2 == Xor(a / 2, b / 2)
    ensures Xor(a, b) % 2 == if a % 2 == b % 2 then 0 else 1
  {
  }

  /** XOR with the same value twice gives the original back. */
  lemma {:induction false} XorSelfInverse(a: nat, b: nat)
    ensures Xor(Xor(a, b), b) == a
    decreases a + b
  {
    if a != 0 || b != 0 {
      var x := Xor(a, b);
      var y := Xor(x, b);
      XorBits(a, b);
      XorBits(x, b);
      XorSelfInverse(a / 2, b / 2);
      assert y / 2 == a / 2;
      assert y % 2 == a % 2;
      HalvesDetermine(y, a);
    }
  }

  lemma HalvesDetermine(y: nat, a: nat)
    requires y / 2 == a / 2 && y % 2 == a % 2
    ensures y == a
  {
  }

  /** XOR with a value below `2^k` leaves every bit from `k` upwards as it was. */
  lemma {:induction false} XorKeepsHighBits(a: nat, b: nat, k: nat)
    requires b < Pow2(k)
    ensures Xor(a, b) / Pow2(k) == a / Pow2(k)
  {
    if k == 0 {
      XorZero(a);
    } else if a == 0 && b == 0 {
    } else {
      var x := Xor(a, b);
      assert x / 2 == Xor(a / 2, b / 2);
      XorKeepsHighBits(a / 2, b / 2, k - 1);
      DivDiv(x, 2, Pow2(k - 1));
      DivDiv(a, 2, Pow2(k - 1));
    }
  }

  /** Flipping bits of the low byte of a code point gives a code point, so `chr`
      of the cipher's output never fails. */
  lemma XorByteIsCodePoint(c: CodePoint, b: Byte)
    ensures Xor(c, b) < 0x11_0000
  {
    assert Pow2(8) == 256;
    XorKeepsHighBits(c, b, 8);
    var x := Xor(c, b);
    assert x == 256 * (x / 256) + x % 256;
    assert x / 256 == c / 256 <= 0x10FF;
  }

  /** One output character of the cipher: `chr(ord(char) ^ byte)`. */
  function XorCodePoint(c: CodePoint, b: Byte): (r: CodePoint)
    ensures Xor(r, b) == c
  {
    XorByteIsCodePoint(c, b);
    XorSelfInverse(c, b);
    Xor(c, b)
  }
}
