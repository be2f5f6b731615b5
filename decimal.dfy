/** The string operations of the middle-square step, on non-negative integers:
    `str(n)`, `s.zfill(w)`, `'9' * d` and `int(s)` of a string of decimal digits. */
module Decimal {
  import opened Numerics

  predicate IsDigit(ch: char) {
    '0' <= ch <= '9'
  }

  predicate IsDigitString(s: string) {
    forall i :: 0 <= i < |s| ==> IsDigit(s[i])
  }

  function DigitValue(ch: char): (v: int)
    requires IsDigit(ch)
    ensures 0 <= v < 10
  {
    ch as int - '0' as int
  }

  function DigitChar(v: int): (ch: char)
    requires 0 <= v < 10
    ensures IsDigit(ch) && DigitValue(ch) == v
  {
    ('0' as int + v) as char
  }

  /** `ch * k` in Python: `k` copies of one character. */
  function Repeat(ch: char, k: nat): (s: string)
    ensures |s| == k
    ensures forall i :: 0 <= i < k ==> s[i] == ch
  {
    if k == 0 then [] else Repeat(ch, k - 1) + [ch]
  }

  /** The number of characters of `str(n)`. */
  function NumDigits(n: nat): (k: nat)
    ensures k >= 1
  {
    if n < 10 then 1 else 1 + NumDigits(n / 10)
  }

  /** `str(n)` for `n >= 0`: the decimal digits of `n`, most significant first,
      with no leading zero except for `n == 0` itself. */
  function DecimalString(n: nat): (s: string)
    ensures IsDigitString(s)
    ensures |s| == NumDigits(n)
    ensures s[0] != '0' || n == 0
  {
    if n < 10 then [DigitChar(n)] else DecimalString(n / 10) + [DigitChar(n % 10)]
  }

  /** `s.zfill(width)`: pad with `'0'` on the left up to `width` characters,
      keeping `s` after the padding. Python's `zfill` puts the zeros after a
      leading `+` or `-`; this model does not, and only pads `str(s²)`, which
      has no sign. */
  function ZFill(s: string, width: int): (r: string)
    ensures |r| == if |s| >= width then |s| else width
    ensures forall i :: 0 <= i < |r| - |s| ==> r[i] == '0'
    ensures r[|r| - |s|..] == s
  {
    if |s| >= width then s else Repeat('0', width - |s|) + s
  }

  /** `int(s)` for a string of decimal digits (leading zeros allowed). Python
      refuses the empty string; here it has the value 0, and the model only
      parses non-empty strings. */
  function Value(s: string): nat
    requires IsDigitString(s)
  {
    if s == [] then 0 else Value(s[..|s| - 1]) * 10 + DigitValue(s[|s| - 1])
  }

  /** `n // 10^k`: `n` without its `k` lowest decimal digits. */
  function DropDigits(n: nat, k: nat): nat {
    if k == 0 then n else DropDigits(n / 10, k - 1)
  }

  /** `n % 10^k`: the `k` lowest decimal digits of `n`. */
  function LowDigits(n: nat, k: nat): (r: nat)
    ensures r < Pow10(k)
  {
    if k == 0 then 0 else LowDigits(n / 10, k - 1) * 10 + n % 10
  }

  lemma {:induction false} DropDigitsOfZero(k: nat)
    ensures DropDigits(0, k) == 0
  {
    if k > 0 {
      DropDigitsOfZero(k - 1);
    }
  }

  lemma {:induction false} LowDigitsOfZero(k: nat)
    ensures LowDigits(0, k) == 0
  {
    if k > 0 {
      LowDigitsOfZero(k - 1);
    }
  }

  /** `DropDigits` is the quotient by `10^k`. */
  lemma {:induction false} DropDigitsIsQuotient(n: nat, k: nat)
    ensures DropDigits(n, k) == n / Pow10(k)
  {
    if k > 0 {
      DropDigitsIsQuotient(n / 10, k - 1);
      DivDiv(n, 10, Pow10(k - 1));
    }
  }

  /** `LowDigits` is the remainder by `10^k`. */
  lemma {:induction false} LowDigitsIsRemainder(n: nat, k: nat)
    ensures LowDigits(n, k) == n % Pow10(k)
  {
    if k > 0 {
      LowDigitsIsRemainder(n / 10, k - 1);
      var p := Pow10(k - 1);
      var q, l, m := (n / 10) / p, LowDigits(n / 10, k - 1), n % 10;
      assert n / 10 == q * p + l;
      assert n == (q * p + l) * 10 + m;
      Regroup(q, p, l, m);
      DivModUnique(n, Pow10(k), q, l * 10 + m);
    }
  }

  lemma Regroup(q: int, p: int, l: int, m: int)
    ensures (q * p + l) * 10 + m == q * (p * 10) + (l * 10 + m)
  {
  }

  /** `int(str(n)) == n`. */
  lemma {:induction false} ValueOfDecimalString(n: nat)
    ensures Value(DecimalString(n)) == n
  {
    if n >= 10 {
      ValueOfDecimalString(n / 10);
      var s := DecimalString(n);
      assert s[..|s| - 1] == DecimalString(n / 10);
    }
  }

  /** Leading zeros do not change the value. */
  lemma {:induction false} ValueOfPadded(k: nat, s: string)
    requires IsDigitString(s)
    ensures IsDigitString(Repeat('0', k) + s)
    ensures Value(Repeat('0', k) + s) == Value(s)
  {
    var z := Repeat('0', k);
    if s == [] {
      assert z + s == z;
      ValueOfZeros(k);
    } else {
      var s' := s[..|s| - 1];
      ValueOfPadded(k, s');
      assert (z + s)[..|z + s| - 1] == z + s';
    }
  }

  /** A run of zeros parses to 0. */
  lemma {:induction false} ValueOfZeros(k: nat)
    ensures Value(Repeat('0', k)) == 0
  {
    if k > 0 {
      ValueOfZeros(k - 1);
      assert Repeat('0', k)[..k - 1] == Repeat('0', k - 1);
    }
  }

  /** `int('9' * d) == 10^d - 1`. */
  lemma {:induction false} ValueOfNines(d: nat)
    ensures Value(Repeat('9', d)) == Pow10(d) - 1
  {
    if d > 0 {
      ValueOfNines(d - 1);
      assert Repeat('9', d)[..d - 1] == Repeat('9', d - 1);
    }
  }

  /** Padding with `zfill` does not change the value: `int(s.zfill(w)) == int(s)`. */
  lemma ValueOfZFill(s: string, width: int)
    requires IsDigitString(s)
    ensures IsDigitString(ZFill(s, width))
    ensures Value(ZFill(s, width)) == Value(s)
  {
    if |s| < width {
      ValueOfPadded(width - |s|, s);
    }
  }

  /** Cutting the last `k` characters drops the `k` lowest digits. */
  lemma {:induction false} ValueOfPrefix(s: string, k: nat)
    requires IsDigitString(s) && k <= |s|
    ensures Value(s[..|s| - k]) == DropDigits(Value(s), k)
  {
    if k > 0 {
      var s' := s[..|s| - 1];
      ValueOfPrefix(s', k - 1);
      assert s'[..|s'| - (k - 1)] == s[..|s| - k];
    } else {
      assert s[..|s|] == s;
    }
  }

  /** Keeping the last `k` characters keeps the `k` lowest digits. */
  lemma {:induction false} ValueOfSuffix(s: string, k: nat)
    requires IsDigitString(s) && k <= |s|
    ensures Value(s[|s| - k..]) == LowDigits(Value(s), k)
  {
    if k > 0 {
      var s' := s[..|s| - 1];
      ValueOfSuffix(s', k - 1);
      var t := s[|s| - k..];
      var dv := DigitValue(s[|s| - 1]);
      assert Value(s) == Value(s') * 10 + dv;
      assert Value(s) / 10 == Value(s') && Value(s) % 10 == dv;
      assert t[..|t| - 1] == s'[|s'| - (k - 1)..] && t[|t| - 1] == s[|s| - 1];
      assert Value(t) == Value(s'[|s'| - (k - 1)..]) * 10 + dv;
    } else {
      assert s[|s|..] == [];
    }
  }

  /** Parsing the `d` characters at `i` of a digit string with `e` characters to
      their right: drop the `e` lowest digits, then keep the `d` lowest. */
  lemma ValueOfWindow(s: string, i: nat, d: nat, e: nat)
    requires IsDigitString(s) && i + d + e == |s|
    ensures Value(s[i..i + d]) == LowDigits(DropDigits(Value(s), e), d)
  {
    var t := s[..|s| - e];
    ValueOfPrefix(s, e);
    ValueOfSuffix(t, d);
    assert t[|t| - d..] == s[i..i + d];
  }
}
