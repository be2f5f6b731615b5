/** Von Neumann's middle-square generator, `MiddleSquarePRNG` in cipher.py:59-100.

    A draw squares the seed, writes the square in decimal, left-pads it with
    zeros to at least `digits` characters, and parses the centred window of
    `digits` characters back to an integer; that integer is both the output and
    the next seed. */
module MiddleSquare {
  import opened Numerics
  import opened Decimal
  import opened Normalize

  /** The width the constructor sets, cipher.py:69. */
  const DefaultDigits := 5

  /** `int('9' * d)`, the normalisation denominator for width `d`
      (cipher.py:75). Python refuses `int('')`, hence `d >= 1`. */
  function MaxValueFor(d: int): (m: int)
    requires d >= 1
    ensures m == Pow10(d) - 1
  {
    ValueOfNines(d);
    Value(Repeat('9', d))
  }

  /** `seed ** 2`, never negative. */
  function Square(seed: int): (sq: nat) {
    seed * seed
  }

  /** The left end of the centred window, `int((width - digits) / 2)`
      (cipher.py:86-88); `width >= digits`, so truncation is the floor. */
  function LeftPos(width: int, d: int): (p: int)
    ensures width >= d ==> 0 <= p && 2 * p <= width - d <= 2 * p + 1
  {
    (width - d) / 2
  }

  /** The length of `str(s²).zfill(d)`: the larger of `d` and the number of
      digits of the square. */
  function PaddedWidth(sq: nat, d: int): int {
    if NumDigits(sq) >= d then NumDigits(sq) else d
  }

  /** The middle-square step as arithmetic: the window starts at `leftPos` of the
      padded width `w`, so `w - leftPos - d`, that is half of `w - d` rounded up,
      digits lie to its right. Drop those and keep the `d` lowest of the rest. */
  function Next(seed: int, d: int): (r: nat)
    requires d >= 1
    ensures r < Pow10(d)
  {
    var sq := Square(seed);
    var w := PaddedWidth(sq, d);
    LowDigits(DropDigits(sq, (w - d + 1) / 2), d)
  }

  /** The string steps of cipher.py:80-90 compute `Next`: render `s²` in
      decimal, `zfill` it to `d` characters, cut the centred `d` characters and
      parse them. */
  lemma WindowIsNext(seed: int, d: int, strSquare: string)
    requires d >= 1 && strSquare == ZFill(DecimalString(Square(seed)), d)
    ensures IsDigitString(strSquare)
    ensures var leftPos := LeftPos(|strSquare|, d);
            0 <= leftPos && leftPos + d <= |strSquare| &&
            Value(strSquare[leftPos..leftPos + d]) == Next(seed, d)
  {
    PaddedSquare(Square(seed), d);
    WindowOfPadded(seed, d, strSquare);
  }

  /** The window of any digit string of the padded width whose value is `s²`. */
  lemma WindowOfPadded(seed: int, d: int, s: string)
    requires d >= 1 && IsDigitString(s)
    requires |s| == PaddedWidth(Square(seed), d) && Value(s) == Square(seed)
    ensures var leftPos := LeftPos(|s|, d);
            0 <= leftPos && leftPos + d <= |s| &&
            Value(s[leftPos..leftPos + d]) == Next(seed, d)
  {
    var w := |s|;
    RightOfWindow(w, d);
    ValueOfWindow(s, LeftPos(w, d), d, (w - d + 1) / 2);
  }

  /** `str(s²).zfill(d)` is a digit string of the padded width whose value is `s²`. */
  lemma PaddedSquare(sq: nat, d: int)
    ensures var s := ZFill(DecimalString(sq), d);
            IsDigitString(s) && |s| == PaddedWidth(sq, d) && Value(s) == sq
  {
    ValueOfDecimalString(sq);
    ValueOfZFill(DecimalString(sq), d);
  }

  /** Right of a centred window of `d` in `w` lie half of `w - d` rounded up. */
  lemma RightOfWindow(w: int, d: int)
    requires w >= d
    ensures 0 <= LeftPos(w, d) && w - LeftPos(w, d) - d == (w - d + 1) / 2
  {
  }

  /** In Python's integer arithmetic the window is
      `(s² // 10^(w - leftPos - d)) % 10^d`. */
  lemma NextIsQuotientRemainder(seed: int, d: int)
    requires d >= 1
    ensures var sq := Square(seed);
            var w := PaddedWidth(sq, d);
            Next(seed, d) == (sq / Pow10(w - LeftPos(w, d) - d)) % Pow10(d)
  {
    var sq := Square(seed);
    var w := PaddedWidth(sq, d);
    var e := (w - d + 1) / 2;
    assert w - LeftPos(w, d) - d == e;
    DropDigitsIsQuotient(sq, e);
    LowDigitsIsRemainder(DropDigits(sq, e), d);
  }

  /** With five digits, seed 83666 draws 99999, the largest five-digit value:
      83666² = 6999999556, whose middle five digits are 99999. */
  lemma DrawFrom83666()
    ensures Next(83666, 5) == 99999
  {
    assert Square(83666) == 6999999556;
    TenDigits();
    MiddleOfTenDigits();
  }

  lemma TenDigits()
    ensures PaddedWidth(6999999556, 5) == 10
  {
    assert NumDigits(6999999556) == 1 + NumDigits(699999955);
    assert NumDigits(69999) == 5;
  }

  lemma MiddleOfTenDigits()
    ensures LowDigits(DropDigits(6999999556, 3), 5) == 99999
  {
    assert DropDigits(6999999556, 3) == 6999999;
    assert LowDigits(6999999, 5) == 99999;
  }

  /** Seed 0 is a fixed point: the draw from it is 0 again. */
  lemma ZeroIsFixedPoint(d: int)
    requires d >= 1
    ensures Next(0, d) == 0
  {
    var w := PaddedWidth(0, d);
    DropDigitsOfZero((w - d + 1) / 2);
    LowDigitsOfZero(d);
  }

  /** The string steps of cipher.py:80-90: square, `str`, `zfill`, cut the
      centred window and parse it. */
  method MiddleOfSquare(seed: int, d: int) returns (middleSquare: int)
    requires d >= 1
    ensures middleSquare == Next(seed, d)
  {
    var strSquare := DecimalString(Square(seed));
    strSquare := ZFill(strSquare, d);
    var width := |strSquare|;
    var leftPos := LeftPos(width, d);
    WindowIsNext(seed, d, strSquare);
    middleSquare := Value(strSquare[leftPos..leftPos + d]);
  }

  /** A `MiddleSquarePRNG` object: its seed, its window width and the matching
      normalisation denominator. */
  class MiddleSquarePrng {
    var seed: int
    var digits: int
    var maxValue: int

    /** `setDigits` keeps `maxValue` the largest `digits`-digit number. */
    ghost predicate Valid()
      reads this
    {
      digits >= 1 && maxValue == Pow10(digits) - 1
    }

    /** cipher.py:67-69: seed 0, then `setDigits(5)`. */
    constructor ()
      ensures Valid()
      ensures seed == 0 && digits == DefaultDigits
    {
      seed := 0;
      new;
      SetDigits(DefaultDigits);
    }

    /** cipher.py:71-72. */
    method SetSeed(s: int)
      modifies this`seed
      ensures seed == s
    {
      seed := s;
    }

    /** cipher.py:73-75: the width and the denominator change together; the seed
        stays. */
    method SetDigits(d: int)
      requires d >= 1
      modifies this`digits, this`maxValue
      ensures Valid()
      ensures digits == d && maxValue == Pow10(d) - 1 && seed == old(seed)
    {
      digits := d;
      maxValue := MaxValueFor(d);
    }

    /** cipher.py:76-94: the middle of the square becomes the output and the seed. */
    method GetRawPrng() returns (r: int)
      requires Valid()
      modifies this`seed
      ensures Valid()
      ensures r == Next(old(seed), digits) && seed == r
      ensures 0 <= r <= maxValue
    {
      var middleSquare := MiddleOfSquare(seed, digits);
      SetSeed(middleSquare);
      r := middleSquare;
    }

    /** cipher.py:95-100: one raw draw over `maxValue`, a value in `[0, 1]`. */
    method GetNormalizedPrng() returns (x: Normalized)
      requires Valid()
      modifies this`seed
      ensures Valid()
      ensures seed == Next(old(seed), digits)
      ensures x == Normalized(seed, maxValue)
    {
      var raw := GetRawPrng();
      x := Normalized(raw, maxValue);
    }
  }

  /** The constructor's default state is stuck at 0: three draws give 0, 0, 0. */
  method DefaultIsStuck() returns (draws: seq<int>)
    ensures draws == [0, 0, 0]
  {
    var p := new MiddleSquarePrng();
    ZeroIsFixedPoint(DefaultDigits);
    var a := p.GetRawPrng();
    var b := p.GetRawPrng();
    var c := p.GetRawPrng();
    draws := [a, b, c];
  }
}
