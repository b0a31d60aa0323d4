/** The aggregate rows exchanged between the stats endpoints and the dashboard. */
module StatsTypes {

  /** One named bucket of a distribution (browser, OS, referrer, ...). */
  datatype NameCount = NameCount(name: string, count: int)

  /** One hour-of-day bucket. */
  datatype HourlyCount = HourlyCount(hour: int, count: int)

  /** Sum of the counts of a list of buckets. */
  function SumCounts(xs: seq<NameCount>): int
  {
    if |xs| == 0 then 0 else SumCounts(xs[..|xs| - 1]) + xs[|xs| - 1].count
  }

  lemma {:induction false} SumCountsAppend(xs: seq<NameCount>, ys: seq<NameCount>)
    ensures SumCounts(xs + ys) == SumCounts(xs) + SumCounts(ys)
    decreases |ys|
  {
    if |ys| == 0 {
      assert xs + ys == xs;
    } else {
      var init := ys[..|ys| - 1];
      assert (xs + ys)[..|xs + ys| - 1] == xs + init;
      SumCountsAppend(xs, init);
    }
  }

  lemma {:induction false} SumCountsNonNegative(xs: seq<NameCount>)
    requires forall i :: 0 <= i < |xs| ==> xs[i].count >= 0
    ensures SumCounts(xs) >= 0
    decreases |xs|
  {
    if |xs| > 0 {
      SumCountsNonNegative(xs[..|xs| - 1]);
    }
  }
}
