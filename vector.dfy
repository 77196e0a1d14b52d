/**
 * The 13-weight FECR vector: the neutral vector and the crystal-driven
 * re-weighting that emphasises the middle band (indices 4..8) and
 * renormalises to total weight 1. Weights are exact reals.
 */
module FecrVector {

  /** The number of FECR layers, hence of weights. */
  const LAYERS: nat := 13
  /** The middle band `phi[4:9]`. */
  const BAND_LO: nat := 4
  const BAND_HI: nat := 9
  /** The cap on the extra weight, and the crystal count per unit of weight. */
  const MAX_BUMP: real := 0.25
  const CRYSTALS_PER_UNIT: real := 20.0

  /** `count` copies of `v`. */
  function Const(count: nat, v: real): (s: seq<real>)
    ensures |s| == count
    ensures forall i :: 0 <= i < count ==> s[i] == v
  {
    seq(count, _ => v)
  }

  function Sum(s: seq<real>): real
  {
    if s == [] then 0.0 else s[0] + Sum(s[1..])
  }

  /** `neutral()`: equal weight on every layer. */
  function Neutral(): (phi: seq<real>)
    ensures |phi| == LAYERS
  {
    Const(LAYERS, 1.0 / 13.0)
  }

  /** `bump = min(count / 20, 0.25)`. */
  function Bump(count: nat): (b: real)
    ensures 0.0 <= b <= MAX_BUMP
  {
    var share := count as real / CRYSTALS_PER_UNIT;
    if MAX_BUMP < share then MAX_BUMP else share
  }

  /** `phi[4:9] += b` (a slice past the end is clipped, as numpy does). */
  function BumpBand(phi: seq<real>, b: real): (r: seq<real>)
    ensures |r| == |phi|
    ensures forall i :: 0 <= i < |phi| ==> r[i] == if BAND_LO <= i < BAND_HI then phi[i] + b else phi[i]
  {
    seq(|phi|, i requires 0 <= i < |phi| => if BAND_LO <= i < BAND_HI then phi[i] + b else phi[i])
  }

  /** Every weight multiplied by `c`. */
  function Scale(phi: seq<real>, c: real): (r: seq<real>)
    ensures |r| == |phi|
    ensures forall i :: 0 <= i < |phi| ==> r[i] == phi[i] * c
  {
    seq(|phi|, i requires 0 <= i < |phi| => phi[i] * c)
  }

  /** `phi /= phi.sum()`. */
  function Normalise(phi: seq<real>): (r: seq<real>)
    requires Sum(phi) != 0.0
    ensures |r| == |phi|
    ensures Sum(r) == 1.0
  {
    SumScale(phi, 1.0 / Sum(phi));
    Scale(phi, 1.0 / Sum(phi))
  }

  /** `update_from_crystals`: only the number of crystals matters. */
  function UpdateFromCrystals<K, V>(crystals: map<K, V>): (phi: seq<real>)
    ensures |phi| == LAYERS
  {
    var n := |crystals|;
    if n == 0 then Neutral()
    else
      var bumped := BumpBand(Neutral(), Bump(n));
      BumpedSum(Bump(n));
      Normalise(bumped)
  }

  /** The weight of each of the eight layers outside the band, for `count` crystals. */
  function Side(count: nat): real
  {
    (1.0 / 13.0) / (1.0 + 5.0 * Bump(count))
  }

  /** The weight of each of the five layers of the band, for `count` crystals. */
  function Middle(count: nat): real
  {
    (1.0 / 13.0 + Bump(count)) / (1.0 + 5.0 * Bump(count))
  }

  lemma {:induction false} SumAppend(a: seq<real>, b: seq<real>)
    ensures Sum(a + b) == Sum(a) + Sum(b)
    decreases |a|
  {
    if a == [] {
      assert a + b == b;
    } else {
      assert (a + b)[1..] == a[1..] + b;
      SumAppend(a[1..], b);
    }
  }

  lemma {:induction false} SumConst(count: nat, v: real)
    ensures Sum(Const(count, v)) == count as real * v
    decreases count
  {
    if count > 0 {
      assert Const(count, v)[1..] == Const(count - 1, v);
      SumConst(count - 1, v);
    }
  }

  lemma {:induction false} SumScale(phi: seq<real>, c: real)
    ensures Sum(Scale(phi, c)) == Sum(phi) * c
    decreases |phi|
  {
    if phi != [] {
      var r := Scale(phi, c);
      assert r[1..] == Scale(phi[1..], c) by {
        forall i | 0 <= i < |phi| - 1
          ensures r[1..][i] == Scale(phi[1..], c)[i]
        {
          assert r[1..][i] == r[i + 1] == phi[i + 1] * c;
        }
      }
      SumScale(phi[1..], c);
      assert Sum(r) == phi[0] * c + Sum(phi[1..]) * c;
    }
  }

  /** The neutral weights sum to 1. */
  lemma NeutralSum()
    ensures Sum(Neutral()) == 1.0
  {
    SumConst(LAYERS, 1.0 / 13.0);
  }

  /** The band is five layers wide, so bumping it adds 5b to the total. */
  lemma BumpedSum(b: real)
    ensures Sum(BumpBand(Neutral(), b)) == 1.0 + 5.0 * b
  {
    var u := 1.0 / 13.0;
    var bumped := BumpBand(Neutral(), b);
    assert bumped == Const(4, u) + Const(5, u + b) + Const(4, u);
    SumAppend(Const(4, u) + Const(5, u + b), Const(4, u));
    SumAppend(Const(4, u), Const(5, u + b));
    SumConst(4, u);
    SumConst(5, u + b);
  }

  lemma BumpRange(count: nat)
    ensures 0.0 <= Bump(count) <= MAX_BUMP
    ensures count >= 1 ==> Bump(count) > 0.0
    ensures count >= 5 ==> Bump(count) == MAX_BUMP
  {
  }

  /** The weights of `update_from_crystals` sum to 1 for every crystal map. */
  lemma UpdateSumsToOne<K, V>(crystals: map<K, V>)
    ensures Sum(UpdateFromCrystals(crystals)) == 1.0
  {
    if |crystals| == 0 {
      NeutralSum();
    } else {
      BumpedSum(Bump(|crystals|));
    }
  }

  /**
   * Closed form: the band holds Middle(n), the other eight layers Side(n).
   * With no crystals both are 1/13, the neutral weight.
   */
  lemma UpdateWeights<K, V>(crystals: map<K, V>, i: nat)
    requires i < LAYERS
    ensures UpdateFromCrystals(crystals)[i] ==
      if BAND_LO <= i < BAND_HI then Middle(|crystals|) else Side(|crystals|)
  {
    var n := |crystals|;
    if n > 0 {
      BumpRange(n);
      BumpedWeight(Bump(n), i);
    }
  }

  lemma BumpedWeight(b: real, i: nat)
    requires b >= 0.0 && i < LAYERS
    ensures Sum(BumpBand(Neutral(), b)) == 1.0 + 5.0 * b
    ensures Normalise(BumpBand(Neutral(), b))[i] ==
      (if BAND_LO <= i < BAND_HI then 1.0 / 13.0 + b else 1.0 / 13.0) / (1.0 + 5.0 * b)
  {
    var d := 1.0 + 5.0 * b;
    BumpedSum(b);
    var w := if BAND_LO <= i < BAND_HI then 1.0 / 13.0 + b else 1.0 / 13.0;
    assert BumpBand(Neutral(), b)[i] == w;
    assert w * (1.0 / d) == w / d;
  }

  /** An empty crystal map gives back the neutral vector. */
  lemma UpdateEmpty<K, V>(crystals: map<K, V>)
    requires |crystals| == 0
    ensures UpdateFromCrystals(crystals) == Neutral()
  {
  }

  /** Every weight is strictly positive. */
  lemma UpdatePositive<K, V>(crystals: map<K, V>, i: nat)
    requires i < LAYERS
    ensures UpdateFromCrystals(crystals)[i] > 0.0
  {
    UpdateWeights(crystals, i);
    BumpRange(|crystals|);
  }

  /** With at least one crystal the band weighs strictly more than the rest. */
  lemma MiddleAboveSide(count: nat)
    requires count >= 1
    ensures Middle(count) > Side(count)
  {
    BumpRange(count);
    var b := Bump(count);
    var d := 1.0 + 5.0 * b;
    assert Middle(count) - Side(count) == b / d;
  }

  /** From five crystals on the weights no longer change. */
  lemma UpdateSaturates<K, V>(a: map<K, V>, b: map<K, V>)
    requires |a| >= 5 && |b| >= 5
    ensures UpdateFromCrystals(a) == UpdateFromCrystals(b)
  {
    BumpRange(|a|);
    BumpRange(|b|);
  }

  /** More crystals never lower the band weight. */
  lemma MiddleMonotone(m: nat, n: nat)
    requires m <= n
    ensures Middle(m) <= Middle(n)
  {
    BumpRange(m);
    BumpRange(n);
    var bm, bn := Bump(m), Bump(n);
    assert bm <= bn;
    var u := 1.0 / 13.0;
    assert (u + bm) * (1.0 + 5.0 * bn) <= (u + bn) * (1.0 + 5.0 * bm) by {
      assert (u + bn) * (1.0 + 5.0 * bm) - (u + bm) * (1.0 + 5.0 * bn) == (1.0 - 5.0 * u) * (bn - bm);
    }
    DivMonotone(u + bm, 1.0 + 5.0 * bm, u + bn, 1.0 + 5.0 * bn);
  }

  /** a/b <= c/d for positive denominators when a*d <= c*b. */
  lemma DivMonotone(a: real, b: real, c: real, d: real)
    requires b > 0.0 && d > 0.0
    requires a * d <= c * b
    ensures a / b <= c / d
  {
    assert a / b == (a * d) / (b * d);
    assert c / d == (c * b) / (b * d);
  }
}
