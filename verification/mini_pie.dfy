/**
 * The dashboard's small pie chart of a distribution: the first `maxItems`
 * rows, then one "Other" slice for the rest when that rest adds up to more
 * than zero. Percentages are floating point and are not modelled.
 */
module MiniPie {
  import opened Wrappers
  import opened StatsTypes
  import opened Js

  const DefaultMaxItems := 6
  const OtherName := "Other"

  /** What the component renders: the "-" placeholder, or the slices and their total. */
  datatype Pie = Placeholder | Chart(slices: seq<NameCount>, total: int)

  /** The total of the counts, accumulated from the left starting at zero. */
  function Reduce(rows: seq<NameCount>): (s: int)
    ensures s == SumCounts(rows)
    decreases |rows|
  {
    if |rows| == 0 then 0
    else
      var s := rows[0].count + Reduce(rows[1..]);
      assert rows == [rows[0]] + rows[1..];
      SumCountsAppend([rows[0]], rows[1..]);
      assert SumCounts([rows[0]]) == rows[0].count by {
        assert [rows[0]][..0] == [];
      }
      s
  }

  /** The component's derivation of `top`, `otherCount`, `chartData` and `total`. */
  function Render(data: Option<seq<NameCount>>, maxItems: int): (p: Pie)
    ensures p.Placeholder? <==> data.None? || |data.value| == 0
    ensures p.Chart? ==>
      && var top := SliceTo(data.value, maxItems);
      && var rest := SliceFrom(data.value, maxItems);
      && |top| <= |p.slices| <= |top| + 1
      && p.slices[..|top|] == top
      && (|p.slices| == |top| + 1 <==> SumCounts(rest) > 0)
      && (|p.slices| == |top| + 1 ==> p.slices[|top|] == NameCount(OtherName, SumCounts(rest)))
      && p.total == SumCounts(p.slices)
  {
    match data
    case None => Placeholder
    case Some(rows) =>
      if |rows| == 0 then Placeholder
      else
        var top := SliceTo(rows, maxItems);
        var otherCount := Reduce(SliceFrom(rows, maxItems));
        var slices := if otherCount > 0 then top + [NameCount(OtherName, otherCount)] else top;
        Chart(slices, Reduce(slices))
  }

  /** The component without a `maxItems` prop: at most six named slices and "Other". */
  function RenderDefault(data: Option<seq<NameCount>>): (p: Pie)
    ensures p.Placeholder? <==> data.None? || |data.value| == 0
    ensures p.Chart? ==>
      && var named := if |data.value| < 6 then |data.value| else 6;
      && named <= |p.slices| <= named + 1
      && p.slices[..named] == data.value[..named]
  {
    Render(data, DefaultMaxItems)
  }

  /** With a non-negative limit, the named slices are the first `min(len, maxItems)` rows. */
  lemma TopIsPrefix(rows: seq<NameCount>, maxItems: int)
    requires |rows| > 0 && maxItems >= 0
    ensures
      var n := if |rows| < maxItems then |rows| else maxItems;
      Render(Some(rows), maxItems).slices[..n] == rows[..n]
  {
  }

  /** So there are at most `maxItems + 1` slices. */
  lemma SliceCountBound(rows: seq<NameCount>, maxItems: int)
    requires |rows| > 0 && maxItems >= 0
    ensures |Render(Some(rows), maxItems).slices| <= maxItems + 1
  {
  }

  /**
   * When the rows past the limit do not sum to a negative number (in
   * particular when all counts are non-negative), the total is the sum of
   * the whole input: folding the tail into "Other" loses nothing.
   */
  lemma {:induction false} TotalIsWholeSum(rows: seq<NameCount>, maxItems: int)
    requires |rows| > 0
    requires SumCounts(SliceFrom(rows, maxItems)) >= 0
    ensures Render(Some(rows), maxItems).total == SumCounts(rows)
  {
    var top := SliceTo(rows, maxItems);
    var rest := SliceFrom(rows, maxItems);
    SliceSplit(rows, maxItems);
    SumCountsAppend(top, rest);
    var p := Render(Some(rows), maxItems);
    if SumCounts(rest) > 0 {
      var withOther := top + [NameCount(OtherName, SumCounts(rest))];
      assert p.slices == withOther;
      assert withOther[..|withOther| - 1] == top;
    } else {
      assert p.slices == top;
    }
  }

  /** The whole-sum property for non-negative counts. */
  lemma NonNegativeTotal(rows: seq<NameCount>, maxItems: int)
    requires |rows| > 0
    requires forall i :: 0 <= i < |rows| ==> rows[i].count >= 0
    ensures Render(Some(rows), maxItems).total == SumCounts(rows)
  {
    RestNonNegative(rows, maxItems);
    TotalIsWholeSum(rows, maxItems);
  }

  lemma RestNonNegative(rows: seq<NameCount>, maxItems: int)
    requires forall i :: 0 <= i < |rows| ==> rows[i].count >= 0
    ensures SumCounts(SliceFrom(rows, maxItems)) >= 0
  {
    var j := SliceIndex(maxItems, |rows|);
    var rest := SliceFrom(rows, maxItems);
    forall i | 0 <= i < |rest|
      ensures rest[i].count >= 0
    {
      assert rest[i] == rows[j + i];
    }
    SumCountsNonNegative(rest);
  }
}
