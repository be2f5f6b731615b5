/** The dice sampler `diceTest` (cipher.py:150-164): each roll is
    `int(prng.getNormalizedPRNG() * 6) + 1`. */
module Dice {
  import opened Normalize
  import opened Generator
  import MiddleSquare

  /** The number of rolls, cipher.py:151. */
  const Samples := 100

  /** The die face `int(x * 6) + 1` of the draw from `st`. */
  function RollFrom(st: PrngState): (face: int)
    requires ValidState(st)
    ensures 1 <= face <= 7
  {
    DrawRange(st);
    RollRange(Draw(st));
    ToRoll(Draw(st))
  }

  /** The first `n` rolls drawn from `st`. */
  function Rolls(st: PrngState, n: nat): (rolls: seq<int>)
    requires ValidState(st)
    ensures |rolls| == n
  {
    if n == 0 then [] else Rolls(st, n - 1) + [RollFrom(AdvanceN(st, n - 1))]
  }

  lemma {:induction false} RollsAt(st: PrngState, n: nat, i: nat)
    requires ValidState(st) && i < n
    ensures Rolls(st, n)[i] == RollFrom(AdvanceN(st, i))
  {
    var rolls := Rolls(st, n - 1);
    assert Rolls(st, n) == rolls + [RollFrom(AdvanceN(st, n - 1))];
    if i < n - 1 {
      RollsAt(st, n - 1, i);
      assert Rolls(st, n)[i] == rolls[i];
    }
  }

  /** With the LCG every roll is a die face: its draws are below 1. */
  lemma LcgRollsAreFaces(st: PrngState, n: nat, i: nat)
    requires ValidState(st) && st.LcgState? && i < n
    ensures 1 <= Rolls(st, n)[i] <= 6
  {
    RollsAt(st, n, i);
    var st' := AdvanceN(st, i);
    DrawRange(st');
    RollRange(Draw(st'));
  }

  /** With the middle square a roll is in `[1, 7]`, and it is 7 exactly when the
      draw equals `maxValue`: the code's `* 6`, not the `* 5` its comment names,
      reaches one past the top face on the closed end of `[0, 1]`. */
  lemma MiddleSquareRollsRange(st: PrngState, n: nat, i: nat)
    requires ValidState(st) && st.MiddleSquareState? && i < n
    ensures 1 <= Rolls(st, n)[i] <= 7
    ensures Rolls(st, n)[i] == 7 <==> AdvanceN(st, i + 1).seed == st.maxValue
  {
    RollsAt(st, n, i);
    var st' := AdvanceN(st, i);
    DrawRange(st');
    RollRange(Draw(st'));
  }

  /** The seventh face is reachable: from seed 83666 with five digits the
      square is 6999999556, whose middle 99999 is `maxValue`, so the roll is 7. */
  lemma SevenIsReachable()
    ensures Rolls(MiddleSquareState(83666, 5, 99999), 1)[0] == 7
  {
    var st := MiddleSquareState(83666, 5, 99999);
    MiddleSquare.DrawFrom83666();
    RollsAt(st, 1, 0);
    RollRange(Draw(st));
  }

  /** The sampling loop of cipher.py:151-157; the statistics are left out. */
  method DiceTest(prng: Prng) returns (samplesList: seq<int>)
    requires prng.Valid()
    modifies prng.Obj()
    ensures prng.Valid() && ValidState(old(prng.State()))
    ensures samplesList == Rolls(old(prng.State()), Samples)
    ensures prng.State() == AdvanceN(old(prng.State()), Samples)
  {
    ghost var st := prng.State();
    prng.ValidHasValidState();
    samplesList := [];
    var n := 0;
    while n < Samples
      invariant 0 <= n <= Samples
      invariant prng.Valid()
      invariant prng.State() == AdvanceN(st, n)
      invariant samplesList == Rolls(st, n)
    {
      var x := prng.GetNormalizedPrng();
      DrawRange(AdvanceN(st, n));
      var roll := ToRoll(x);
      samplesList := samplesList + [roll];
      n := n + 1;
    }
  }
}
