/** The linear congruential generator `lcgPRNG` of cipher.py:102-120, with the
    multiplier, increment and modulus of the ANSI C `rand()` example. */
module Lcg {
  import opened Numerics
  import opened Normalize

  const Multiplier := 1103515245
  const Increment := 12345
  const Modulus := 0x1_0000_0000
  /** The seed the constructor sets, cipher.py:108. */
  const DefaultSeed := 123456

  /** `(a * seed + c) % m` with Python's `%`, which for a positive modulus agrees
      with Dafny's: the result is never negative, whatever the sign of `seed`. */
  function Next(seed: int): (r: int)
    ensures 0 <= r < Modulus
    ensures (r - (Multiplier * seed + Increment)) % Modulus == 0
  {
    var n := Multiplier * seed + Increment;
    var q := n / Modulus;
    assert n % Modulus - n == (-q) * Modulus;
    DivModUnique((-q) * Modulus, Modulus, -q, 0);
    n % Modulus
  }

  /** An `lcgPRNG` object. The three parameters are instance fields in cipher.py
      that nothing reassigns after the constructor; here they are constants. */
  class LcgPrng {
    var seed: int
    const a: int
    const m: int
    const c: int

    ghost predicate Valid() {
      a == Multiplier && m == Modulus && c == Increment
    }

    /** cipher.py:107-115. */
    constructor ()
      ensures Valid()
      ensures seed == DefaultSeed
    {
      seed := DefaultSeed;
      a := Multiplier;
      m := Modulus;
      c := Increment;
    }

    /** cipher.py:116-118: the recurrence overwrites the seed and returns it. */
    method GetRawPrng() returns (r: int)
      requires Valid()
      modifies this`seed
      ensures r == Next(old(seed)) && seed == r
      ensures 0 <= r < m
    {
      seed := (a * seed + c) % m;
      r := seed;
    }

    /** cipher.py:119-120: one raw draw over the modulus, a value in `[0, 1)`. */
    method GetNormalizedPrng() returns (x: Normalized)
      requires Valid()
      modifies this`seed
      ensures seed == Next(old(seed))
      ensures x == Normalized(seed, m)
    {
      var raw := GetRawPrng();
      x := Normalized(raw, m);
    }
  }

  /** The first draw of a freshly constructed generator. */
  method DefaultFirstDraw() returns (r: int)
    ensures r == 3510437241
  {
    var p := new LcgPrng();
    r := p.GetRawPrng();
  }
}
