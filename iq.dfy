/** IQ samples: complex numbers as pairs of reals, and the power measures the
    receiver and the transmitter compute from a block of them. */
module Iq {

  datatype Complex = Complex(re: real, im: real)

  lemma SquareNonNegative(x: real)
    ensures x * x >= 0.0
  {
    if x < 0.0 { assert x * x == (-x) * (-x); }
  }

  /** Squared magnitude |z|^2, numpy's `np.abs(z) ** 2`. */
  function Abs2(z: Complex): (p: real)
    ensures p >= 0.0
  {
    SquareNonNegative(z.re);
    SquareNonNegative(z.im);
    z.re * z.re + z.im * z.im
  }

  /** Sum of the squared magnitudes of a block. */
  function SumPower(s: seq<Complex>): real
  {
    if s == [] then 0.0 else Abs2(s[0]) + SumPower(s[1..])
  }

  /** `np.mean(np.abs(s) ** 2)`; numpy's mean of an empty block is NaN, so
      callers only ask for a non-empty one. */
  function MeanPower(s: seq<Complex>): real
    requires |s| > 0
  {
    SumPower(s) / |s| as real
  }

  /** Every sample of the block has magnitude zero. */
  predicate AllZero(s: seq<Complex>)
  {
    forall i :: 0 <= i < |s| ==> Abs2(s[i]) == 0.0
  }

  /** The total power of a block is never negative, and it is zero exactly
      when every sample is zero. */
  lemma {:induction false} SumPowerZeroIff(s: seq<Complex>)
    ensures SumPower(s) >= 0.0
    ensures SumPower(s) == 0.0 <==> AllZero(s)
  {
    if s != [] {
      SumPowerZeroIff(s[1..]);
      if AllZero(s[1..]) && Abs2(s[0]) == 0.0 {
        forall i | 0 <= i < |s| ensures Abs2(s[i]) == 0.0 {
          if i > 0 { assert s[i] == s[1..][i - 1]; }
        }
      }
      if AllZero(s) {
        assert AllZero(s[1..]) by {
          forall i | 0 <= i < |s[1..]| ensures Abs2(s[1..][i]) == 0.0 {
            assert s[1..][i] == s[i + 1];
          }
        }
      }
    }
  }

  /** The mean power of a non-empty block is positive exactly when some
      sample is non-zero. */
  lemma MeanPowerPositiveIff(s: seq<Complex>)
    requires |s| > 0
    ensures MeanPower(s) >= 0.0
    ensures MeanPower(s) > 0.0 <==> !AllZero(s)
  {
    SumPowerZeroIff(s);
    var n := |s| as real;
    if SumPower(s) > 0.0 {
      assert MeanPower(s) * n == SumPower(s);
    }
  }
}
