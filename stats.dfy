/** Summary statistics of the charts page: `Math.min(...prices)` and
    `Math.max(...prices)` over the normalised history. */
module Stats {
  import opened Sorting
  import opened Records
  import opened Normalize

  /** A JavaScript number as Math.min and Math.max can return it: finite, or
      one of the infinities they return for an empty argument list. */
  datatype ExtReal = NegInfinity | Finite(value: real) | PosInfinity

  function MinReal(xs: seq<real>): (m: real)
    requires |xs| > 0
    ensures m in xs
    ensures forall i :: 0 <= i < |xs| ==> m <= xs[i]
  {
    if |xs| == 1 then xs[0]
    else
      var rest := MinReal(xs[1..]);
      assert forall i :: 1 <= i < |xs| ==> xs[i] == xs[1..][i - 1];
      if xs[0] <= rest then xs[0] else rest
  }

  function MaxReal(xs: seq<real>): (m: real)
    requires |xs| > 0
    ensures m in xs
    ensures forall i :: 0 <= i < |xs| ==> xs[i] <= m
  {
    if |xs| == 1 then xs[0]
    else
      var rest := MaxReal(xs[1..]);
      assert forall i :: 1 <= i < |xs| ==> xs[i] == xs[1..][i - 1];
      if xs[0] >= rest then xs[0] else rest
  }

  /** `Math.min(...xs)`: +Infinity for no arguments, otherwise the least
      element. */
  function Lowest(xs: seq<real>): (r: ExtReal)
    ensures |xs| == 0 ==> r == PosInfinity
    ensures |xs| > 0 ==> r.Finite? && r.value in xs && forall i :: 0 <= i < |xs| ==> r.value <= xs[i]
  {
    if |xs| == 0 then PosInfinity else Finite(MinReal(xs))
  }

  /** `Math.max(...xs)`: -Infinity for no arguments, otherwise the greatest
      element. */
  function Highest(xs: seq<real>): (r: ExtReal)
    ensures |xs| == 0 ==> r == NegInfinity
    ensures |xs| > 0 ==> r.Finite? && r.value in xs && forall i :: 0 <= i < |xs| ==> xs[i] <= r.value
  {
    if |xs| == 0 then NegInfinity else Finite(MaxReal(xs))
  }

  /** For a non-empty list the lowest value is not above the highest. */
  lemma LowestNotAboveHighest(xs: seq<real>)
    requires |xs| > 0
    ensures Lowest(xs).value <= Highest(xs).value
  {
    assert Lowest(xs).value <= xs[0];
  }

  /** The statistics depend only on which values occur, not on their order. */
  lemma {:induction false} StatsPermutationInvariant(xs: seq<real>, ys: seq<real>)
    requires multiset(xs) == multiset(ys)
    ensures Lowest(xs) == Lowest(ys) && Highest(xs) == Highest(ys)
  {
    assert |xs| == |multiset(xs)| == |multiset(ys)| == |ys|;
    if |xs| > 0 {
      var a, b := MinReal(xs), MinReal(ys);
      assert a in multiset(ys) && b in multiset(xs);
      assert a <= b && b <= a;
      var c, d := MaxReal(xs), MaxReal(ys);
      assert c in multiset(ys) && d in multiset(xs);
      assert c <= d && d <= c;
    }
  }

  /** Sorting the history does not change its statistics: min and max of the
      normalised series equal min and max of the raw records' prices, in
      the order the API sent them. */
  lemma SummaryOrderIndependent(raw: seq<RawHistory>)
    ensures Lowest(Prices(NormalizeHistory(raw))) == Lowest(RawPrices(raw))
    ensures Highest(Prices(NormalizeHistory(raw))) == Highest(RawPrices(raw))
  {
    NormalizeHistoryPrices(raw);
    StatsPermutationInvariant(Prices(NormalizeHistory(raw)), RawPrices(raw));
  }
}
