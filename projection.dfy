/** The projection generator (`generatePredictions`): 30 daily points starting
    today, seeded from the last history price and moved by a multiplicative
    random walk of at most five percent a day. A deliberately naive
    placeholder, not a forecast: nothing pulls the walk back to the seed.

    The 29 values Math.random() returns during one call are a parameter;
    days are integers (today is a day number). */
module Projection {
  import opened Common
  import opened Records

  const Days := 30

  /** `0.95 + (Math.random() * 0.1)`: the factor one step of the walk is
      multiplied by, for a draw u of Math.random(). */
  function Factor(u: real): (f: real)
    ensures 0.0 <= u < 1.0 ==> 0.95 <= f < 1.05
  {
    0.95 + u * 0.1
  }

  /** The 29 factors one projection multiplies by, each in [0.95, 1.05). */
  predicate ValidFactors(factors: seq<real>) {
    |factors| == Days - 1 && forall i :: 0 <= i < |factors| ==> 0.95 <= factors[i] < 1.05
  }

  /** The factors obtained from 29 draws of Math.random() are valid ones. */
  lemma DrawsGiveValidFactors(draws: seq<real>)
    requires |draws| == Days - 1 && forall i :: 0 <= i < |draws| ==> 0.0 <= draws[i] < 1.0
    ensures ValidFactors(seq(|draws|, i requires 0 <= i < |draws| => Factor(draws[i])))
  {
  }

  /** `lastPrice`: the price of the last history point, 0 when the history is
      missing or empty. */
  function LastPrice(historicalData: Option<seq<Dated>>): (p: real)
    ensures historicalData.None? || |historicalData.value| == 0 ==> p == 0.0
    ensures historicalData.Some? && |historicalData.value| > 0 ==>
      p == historicalData.value[|historicalData.value| - 1].Price()
  {
    if historicalData.Some? && |historicalData.value| > 0 then
      historicalData.value[|historicalData.value| - 1].Price()
    else 0.0
  }

  /** The i-th price of a multiplicative walk from seed: the seed, and then
      each price the previous one times the next factor. */
  function WalkAt(seed: real, factors: seq<real>, i: nat): real
    requires i <= |factors|
  {
    if i == 0 then seed else WalkAt(seed, factors, i - 1) * factors[i - 1]
  }

  /** The projection as a value: point i is dated today + i and carries the
      i-th price of the walk from seed. */
  function Projected(seed: real, today: int, factors: seq<real>): (r: seq<ProjectionPoint>)
    requires |factors| == Days - 1
    ensures |r| == Days
  {
    seq(Days, i requires 0 <= i < Days => ProjectionPoint(today + i, WalkAt(seed, factors, i)))
  }

  /** `generatePredictions(historicalData)`, the i-th Math.random() factor
      being factors[i - 1]. */
  method GeneratePredictions(historicalData: Option<seq<Dated>>, today: int, factors: seq<real>)
    returns (predictionItems: seq<ProjectionPoint>)
    requires |factors| == Days - 1
    ensures |predictionItems| == Days
    ensures forall i :: 0 <= i < Days ==> predictionItems[i].date == today + i
    ensures predictionItems[0].price == LastPrice(historicalData)
    ensures predictionItems == Projected(LastPrice(historicalData), today, factors)
  {
    var lastPrice := 0.0;
    if historicalData.Some? && |historicalData.value| > 0 {
      lastPrice := historicalData.value[|historicalData.value| - 1].Price();
    }
    ghost var target := Projected(lastPrice, today, factors);
    predictionItems := [];
    for i := 0 to Days
      invariant predictionItems == target[..i]
    {
      var predictedPrice;
      if i == 0 {
        predictedPrice := lastPrice;
      } else {
        var randomFactor := factors[i - 1];
        predictedPrice := predictionItems[i - 1].price * randomFactor;
        assert predictionItems[i - 1] == target[i - 1];
      }
      assert target[i] == ProjectionPoint(today + i, predictedPrice);
      predictionItems := predictionItems + [ProjectionPoint(today + i, predictedPrice)];
    }
  }

  /** Point i of the projection is dated today + i and carries the i-th
      price of the walk. */
  lemma ProjectedAt(seed: real, today: int, factors: seq<real>, i: nat)
    requires |factors| == Days - 1 && i < Days
    ensures Projected(seed, today, factors)[i] == ProjectionPoint(today + i, WalkAt(seed, factors, i))
  {
  }

  /** Each projected price is the previous one times the next factor. */
  lemma ProjectionSteps(seed: real, today: int, factors: seq<real>)
    requires |factors| == Days - 1
    ensures forall i {:trigger factors[i]} :: 0 <= i < Days - 1 ==>
      Projected(seed, today, factors)[i + 1].price == Projected(seed, today, factors)[i].price * factors[i]
  {
    forall i | 0 <= i < Days - 1
      ensures Projected(seed, today, factors)[i + 1].price == Projected(seed, today, factors)[i].price * factors[i]
    {
      ProjectedAt(seed, today, factors, i);
      ProjectedAt(seed, today, factors, i + 1);
    }
  }

  /** A walk from a non-negative seed with non-negative factors never goes
      below zero. */
  lemma {:induction false} WalkNonNegative(seed: real, factors: seq<real>, i: nat)
    requires seed >= 0.0
    requires forall k :: 0 <= k < |factors| ==> factors[k] >= 0.0
    requires i <= |factors|
    ensures WalkAt(seed, factors, i) >= 0.0
  {
    if i > 0 {
      WalkNonNegative(seed, factors, i - 1);
      var p, f := WalkAt(seed, factors, i - 1), factors[i - 1];
      assert p >= 0.0 && f >= 0.0;
      assert p * f >= 0.0;
    }
  }

  /** A walk from zero stays at zero. */
  lemma {:induction false} WalkFromZero(factors: seq<real>, i: nat)
    requires i <= |factors|
    ensures WalkAt(0.0, factors, i) == 0.0
  {
    if i > 0 {
      WalkFromZero(factors, i - 1);
    }
  }

  /** b to the n-th power. */
  function Pow(b: real, n: nat): real {
    if n == 0 then 1.0 else Pow(b, n - 1) * b
  }

  /** From a non-negative seed each step moves the price by a factor in
      [0.95, 1.05), so after i steps it lies between seed * 0.95^i and
      seed * 1.05^i: the walk can drift that far from its seed, and no
      further. */
  lemma {:induction false} WalkEnvelope(seed: real, factors: seq<real>, i: nat)
    requires seed >= 0.0
    requires forall k :: 0 <= k < |factors| ==> 0.95 <= factors[k] < 1.05
    requires i <= |factors|
    ensures seed * Pow(0.95, i) <= WalkAt(seed, factors, i) <= seed * Pow(1.05, i)
  {
    if i > 0 {
      WalkEnvelope(seed, factors, i - 1);
      WalkNonNegative(seed, factors, i - 1);
      var p, f := WalkAt(seed, factors, i - 1), factors[i - 1];
      var lo, hi := seed * Pow(0.95, i - 1), seed * Pow(1.05, i - 1);
      StepBounds(p, f, lo, hi);
      Associate(seed, Pow(0.95, i - 1), 0.95);
      Associate(seed, Pow(1.05, i - 1), 1.05);
    }
  }

  lemma StepBounds(p: real, f: real, lo: real, hi: real)
    requires lo <= p <= hi && p >= 0.0 && 0.95 <= f < 1.05
    ensures lo * 0.95 <= p * f <= hi * 1.05
  {
    assert lo * 0.95 <= p * 0.95;
    assert p * 0.95 <= p * f;
    assert p * f <= p * 1.05;
    assert p * 1.05 <= hi * 1.05;
  }

  lemma Associate(a: real, b: real, c: real)
    ensures a * (b * c) == (a * b) * c
  {
  }

  /** Every projected point has a non-negative price when the seed (the last
      history price) is non-negative. */
  lemma ProjectionNonNegative(historicalData: Option<seq<Dated>>, today: int, factors: seq<real>)
    requires ValidFactors(factors)
    requires LastPrice(historicalData) >= 0.0
    ensures forall i :: 0 <= i < Days ==> Projected(LastPrice(historicalData), today, factors)[i].price >= 0.0
  {
    forall i | 0 <= i < Days {
      WalkNonNegative(LastPrice(historicalData), factors, i);
    }
  }

  /** With no history (or a last price of zero) the whole projection is zero. */
  lemma ProjectionFromZero(historicalData: Option<seq<Dated>>, today: int, factors: seq<real>)
    requires LastPrice(historicalData) == 0.0
    requires |factors| == Days - 1
    ensures forall i :: 0 <= i < Days ==> Projected(LastPrice(historicalData), today, factors)[i].price == 0.0
  {
    forall i | 0 <= i < Days {
      WalkFromZero(factors, i);
    }
  }

  /** Point i of the projection lies within seed * 0.95^i and seed * 1.05^i. */
  lemma ProjectionEnvelope(historicalData: Option<seq<Dated>>, today: int, factors: seq<real>, i: nat)
    requires ValidFactors(factors)
    requires LastPrice(historicalData) >= 0.0
    requires i < Days
    ensures var seed := LastPrice(historicalData);
      seed * Pow(0.95, i) <= Projected(seed, today, factors)[i].price <= seed * Pow(1.05, i)
  {
    WalkEnvelope(LastPrice(historicalData), factors, i);
  }
}
