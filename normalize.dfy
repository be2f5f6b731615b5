/** Normalised draws and the two ways cipher.py scales them: to a keystream byte
    (`int(x * 255)`) and to a die face (`int(x * 6) + 1`).

    cipher.py computes `x = raw / denom` as a float. Here `x` is kept as the exact
    fraction, and `int(x * k)` becomes `(raw * k) / denom`, which for the
    non-negative values involved is the exact floor of the product. */
module Normalize {
  import opened Numerics

  /** The value `raw / denom` returned by `getNormalizedPRNG`. */
  datatype Normalized = Normalized(raw: int, denom: int)

  /** `int(x * k)`: the product truncated to an integer. */
  function Scaled(x: Normalized, k: nat): (r: int)
    requires 0 <= x.raw && 0 < x.denom
    ensures r * x.denom <= x.raw * k < (r + 1) * x.denom
  {
    DivModUnique(x.raw * k, x.denom, (x.raw * k) / x.denom, (x.raw * k) % x.denom);
    (x.raw * k) / x.denom
  }

  /** `toNormalizedByte`'s scaling, cipher.py:57. */
  function ToByte(x: Normalized): (b: int)
    requires 0 <= x.raw && 0 < x.denom
    ensures b * x.denom <= x.raw * 255 < (b + 1) * x.denom
  {
    Scaled(x, 255)
  }

  /** The die face of one draw, cipher.py:156. */
  function ToRoll(x: Normalized): (face: int)
    requires 0 <= x.raw && 0 < x.denom
    ensures (face - 1) * x.denom <= x.raw * 6 < face * x.denom
  {
    Scaled(x, 6) + 1
  }

  /** For a draw in `[0, 1]`, `int(x * k)` lies in `[0, k]` and reaches `k`
      exactly when the draw is 1. */
  lemma ScaledRange(x: Normalized, k: nat)
    requires 0 <= x.raw <= x.denom && 0 < x.denom && k > 0
    ensures 0 <= Scaled(x, k) <= k
    ensures Scaled(x, k) == k <==> x.raw == x.denom
  {
    FloorRange(x.raw, x.denom, k, Scaled(x, k));
  }

  /** If `r` is the floor of `n * k / p` and `0 <= n <= p`, then `0 <= r <= k`,
      with `r == k` only for `n == p`. */
  lemma FloorRange(n: int, p: int, k: int, r: int)
    requires 0 <= n <= p && 0 < p && 0 < k
    requires r * p <= n * k < (r + 1) * p
    ensures 0 <= r <= k
    ensures r == k <==> n == p
  {
    LessOfMulLess(0, r + 1, p);
    MulMonotone(n, p, k);
    assert n * k <= k * p;
    LessOfMulLess(r, k + 1, p);
    if n == p {
      assert k * p < (r + 1) * p;
      LessOfMulLess(k, r + 1, p);
    } else {
      MulMonotone(n, p - 1, k);
      assert r * p < k * p by {
        assert (p - 1) * k == k * p - k;
      }
      LessOfMulLess(r, k, p);
    }
  }

  /** A keystream byte from a draw in `[0, 1]` is in `[0, 255]`, and is 255
      exactly when the draw is 1. */
  lemma ByteRange(x: Normalized)
    requires 0 <= x.raw <= x.denom && 0 < x.denom
    ensures 0 <= ToByte(x) <= 255
    ensures ToByte(x) == 255 <==> x.raw == x.denom
  {
    ScaledRange(x, 255);
  }

  /** A die face from a draw in `[0, 1]` is in `[1, 7]`, and is 7 exactly when the
      draw is 1. */
  lemma RollRange(x: Normalized)
    requires 0 <= x.raw <= x.denom && 0 < x.denom
    ensures 1 <= ToRoll(x) <= 7
    ensures ToRoll(x) == 7 <==> x.raw == x.denom
  {
    ScaledRange(x, 6);
  }
}
