/** The `PRNG` base class of cipher.py:38-57 and what every generator shares:
    a seed that `setSeed` overwrites, a raw draw that becomes the next seed, a
    normalised draw that takes exactly one raw draw, and `toNormalizedByte`.

    The two generators form a closed family. `Prng` holds one generator object
    and dispatches each call to it, the way cipher.py's callers rely on
    overriding. `PrngState` is the value of a generator's fields, and the
    functions over it say what a sequence of draws returns. */
module Generator {
  import opened Numerics
  import opened Normalize
  import MiddleSquare
  import Lcg

  /** The fields of a generator object. The LCG's parameters are constants. */
  datatype PrngState =
    | MiddleSquareState(seed: int, digits: int, maxValue: int)
    | LcgState(seed: int)

  /** What `setDigits` maintains for the middle-square generator. */
  predicate ValidState(st: PrngState) {
    st.MiddleSquareState? ==> st.digits >= 1 && st.maxValue == Pow10(st.digits) - 1
  }

  /** `setSeed(s)`: only the seed changes. */
  function WithSeed(st: PrngState, s: int): (r: PrngState)
    ensures r.seed == s
    ensures SameParameters(r, st)
  {
    match st
    case MiddleSquareState(_, d, m) => MiddleSquareState(s, d, m)
    case LcgState(_) => LcgState(s)
  }

  /** Two states of the same generator kind that differ at most in the seed. */
  predicate SameParameters(st: PrngState, st': PrngState) {
    match st
    case MiddleSquareState(_, d, m) => st'.MiddleSquareState? && st'.digits == d && st'.maxValue == m
    case LcgState(_) => st'.LcgState?
  }

  /** The normalisation denominator: `maxValue` or the modulus. */
  function Denominator(st: PrngState): (p: int)
    requires ValidState(st)
    ensures p > 0
  {
    match st
    case MiddleSquareState(_, _, m) => m
    case LcgState(_) => Lcg.Modulus
  }

  /** The state after one raw draw; its seed is the value drawn. */
  function Advance(st: PrngState): (next: PrngState)
    requires ValidState(st)
    ensures ValidState(next) && SameParameters(next, st)
  {
    match st
    case MiddleSquareState(s, d, m) => MiddleSquareState(MiddleSquare.Next(s, d), d, m)
    case LcgState(s) => LcgState(Lcg.Next(s))
  }

  /** The normalised value of the draw from `st`. */
  function Draw(st: PrngState): (x: Normalized)
    requires ValidState(st)
  {
    Normalized(Advance(st).seed, Denominator(st))
  }

  /** A draw lies in `[0, maxValue]` for the middle square and in `[0, 2^32)` for
      the LCG, so the normalised value is in `[0, 1]` and in `[0, 1)`. */
  lemma DrawRange(st: PrngState)
    requires ValidState(st)
    ensures 0 <= Draw(st).raw <= Draw(st).denom && 0 < Draw(st).denom
    ensures st.LcgState? ==> Draw(st).raw < Draw(st).denom
    ensures st.MiddleSquareState? ==> Draw(st).denom == st.maxValue
  {
    if st.MiddleSquareState? {
      assert MiddleSquare.Next(st.seed, st.digits) < Pow10(st.digits);
    }
  }

  /** The state after `n` raw draws. */
  function AdvanceN(st: PrngState, n: nat): (r: PrngState)
    requires ValidState(st)
    ensures ValidState(r) && SameParameters(r, st)
  {
    if n == 0 then st else Advance(AdvanceN(st, n - 1))
  }

  /** The byte `toNormalizedByte` returns from `st`. */
  function KeyByte(st: PrngState): (b: Byte)
    requires ValidState(st)
  {
    DrawRange(st);
    ByteRange(Draw(st));
    ToByte(Draw(st))
  }

  /** The first `n` keystream bytes drawn from `st` by `toNormalizedByte`. */
  function Keystream(st: PrngState, n: nat): (ks: seq<Byte>)
    requires ValidState(st)
    ensures |ks| == n
  {
    if n == 0 then [] else Keystream(st, n - 1) + [KeyByte(AdvanceN(st, n - 1))]
  }

  /** Byte `i` of the keystream is the scaled draw from the state after `i` draws,
      whatever the length asked for. */
  lemma {:induction false} KeystreamAt(st: PrngState, n: nat, i: nat)
    requires ValidState(st) && i < n
    ensures Keystream(st, n)[i] == KeyByte(AdvanceN(st, i))
  {
    var ks := Keystream(st, n - 1);
    assert Keystream(st, n) == ks + [KeyByte(AdvanceN(st, n - 1))];
    if i < n - 1 {
      KeystreamAt(st, n - 1, i);
      assert Keystream(st, n)[i] == ks[i];
    }
  }

  /** Keystream bytes are in `[0, 255]`; for the LCG at most 254, and for the
      middle square 255 exactly when the draw equals `maxValue`. */
  lemma KeystreamByteRange(st: PrngState, n: nat, i: nat)
    requires ValidState(st) && i < n
    ensures st.LcgState? ==> Keystream(st, n)[i] <= 254
    ensures st.MiddleSquareState? ==>
              (Keystream(st, n)[i] == 255 <==> AdvanceN(st, i + 1).seed == st.maxValue)
  {
    KeystreamAt(st, n, i);
    var x := Draw(AdvanceN(st, i));
    DrawRange(AdvanceN(st, i));
    ByteRange(x);
    if st.LcgState? {
      ScaledRange(x, 255);
    }
  }

  /** Reseeding erases the history: after any number of draws, `setSeed(key)`
      restores exactly the state `setSeed(key)` gave before them. */
  lemma {:induction false} ReseedForgetsDraws(st: PrngState, key: int, n: nat)
    requires ValidState(st)
    ensures WithSeed(AdvanceN(WithSeed(st, key), n), key) == WithSeed(st, key)
  {
    var st' := AdvanceN(WithSeed(st, key), n);
    assert SameParameters(st', WithSeed(st, key));
  }

  /** A middle-square generator seeded with 0 stays at 0 and draws 0 for ever. */
  lemma {:induction false} ZeroSeedIsStuck(st: PrngState, n: nat)
    requires ValidState(st) && st.MiddleSquareState? && st.seed == 0
    ensures AdvanceN(st, n) == st && Draw(AdvanceN(st, n)).raw == 0
  {
    MiddleSquare.ZeroIsFixedPoint(st.digits);
    if n > 0 {
      ZeroSeedIsStuck(st, n - 1);
    }
  }

  /** A generator object of either kind: the receiver of the base-class calls. */
  datatype Prng = MiddleSquareGen(ms: MiddleSquare.MiddleSquarePrng) | LcgGen(lcg: Lcg.LcgPrng)
  {
    /** The object whose fields the calls read and write. */
    function Obj(): object {
      match this
      case MiddleSquareGen(p) => p
      case LcgGen(p) => p
    }

    ghost predicate Valid()
      reads Obj()
    {
      match this
      case MiddleSquareGen(p) => p.Valid()
      case LcgGen(p) => p.Valid()
    }

    /** The values of the object's fields. */
    function State(): PrngState
      reads Obj()
    {
      match this
      case MiddleSquareGen(p) => MiddleSquareState(p.seed, p.digits, p.maxValue)
      case LcgGen(p) => LcgState(p.seed)
    }

    lemma ValidHasValidState()
      requires Valid()
      ensures ValidState(State())
    {
    }

    /** cipher.py:41-42, overridden identically at cipher.py:71-72. */
    method SetSeed(s: int)
      requires Valid()
      modifies Obj()
      ensures Valid()
      ensures State() == WithSeed(old(State()), s)
    {
      match this
      case MiddleSquareGen(p) => p.SetSeed(s);
      case LcgGen(p) => p.seed := s;
    }

    /** cipher.py:43-44. */
    method GetSeed() returns (s: int)
      ensures s == State().seed
    {
      match this
      case MiddleSquareGen(p) => s := p.seed;
      case LcgGen(p) => s := p.seed;
    }

    /** The derived classes' `getRawPRNG`: the draw becomes the seed. */
    method GetRawPrng() returns (r: int)
      requires Valid()
      modifies Obj()
      ensures Valid()
      ensures ValidState(old(State())) && State() == Advance(old(State()))
      ensures r == State().seed
    {
      match this
      case MiddleSquareGen(p) => r := p.GetRawPrng();
      case LcgGen(p) => r := p.GetRawPrng();
    }

    /** The derived classes' `getNormalizedPRNG`: exactly one raw draw. */
    method GetNormalizedPrng() returns (x: Normalized)
      requires Valid()
      modifies Obj()
      ensures Valid()
      ensures ValidState(old(State())) && State() == Advance(old(State()))
      ensures x == Draw(old(State()))
    {
      match this
      case MiddleSquareGen(p) => x := p.GetNormalizedPrng();
      case LcgGen(p) => x := p.GetNormalizedPrng();
    }

    /** cipher.py:53-57: `int(self.getNormalizedPRNG() * 255)`. */
    method ToNormalizedByte() returns (b: Byte)
      requires Valid()
      modifies Obj()
      ensures Valid()
      ensures ValidState(old(State())) && State() == Advance(old(State()))
      ensures b == KeyByte(old(State()))
    {
      ghost var st := State();
      var x := GetNormalizedPrng();
      DrawRange(st);
      ByteRange(x);
      b := ToByte(x);
    }
  }
}
