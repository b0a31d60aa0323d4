/**
 * The dashboard's hour-of-day bar chart: two series of `{hour, count}`
 * samples (clicks and events) become 24 bars, one per hour, and the chart
 * is drawn only when some bar is positive.
 */
module HourlyChart {
  import opened Wrappers
  import opened StatsTypes
  import opened Text
  import Assoc

  const Hours := 24

  /** One bar group: the hour label `"h:00"` and the two counts. */
  datatype Bar = Bar(hour: string, clicks: int, events: int)

  /**
   * The count of the last sample for hour `h`, or 0 when there is none: the
   * reference the chart is measured against.
   */
  function Latest(xs: seq<HourlyCount>, h: int): (c: int)
    ensures (forall i :: 0 <= i < |xs| ==> xs[i].hour != h) ==> c == 0
    ensures (exists i :: 0 <= i < |xs| && xs[i].hour == h) ==>
      exists i :: 0 <= i < |xs| && xs[i].hour == h && c == xs[i].count
        && forall j :: i < j < |xs| ==> xs[j].hour != h
    decreases |xs|
  {
    if |xs| == 0 then 0
    else if xs[|xs| - 1].hour == h then xs[|xs| - 1].count
    else
      var c := Latest(xs[..|xs| - 1], h);
      assert forall i :: 0 <= i < |xs| - 1 ==> xs[..|xs| - 1][i] == xs[i];
      c
  }

  /** The samples as the `(hour, count)` pairs that `map.set` receives. */
  function Pairs(xs: seq<HourlyCount>): (ps: seq<(int, int)>)
    ensures |ps| == |xs|
    ensures forall i :: 0 <= i < |xs| ==> ps[i] == (xs[i].hour, xs[i].count)
  {
    seq(|xs|, i requires 0 <= i < |xs| => (xs[i].hour, xs[i].count))
  }

  /** An hour-to-count map filled from the rows in order, so a later row for an hour wins; absent data gives the empty map. */
  function Series(data: Option<seq<HourlyCount>>): map<int, int> {
    Assoc.Fold(map[], Pairs(data.GetOr([])))
  }

  /** The count of an hour, zero when the map has none. */
  function Get(m: map<int, int>, h: int): int {
    if h in m then m[h] else 0
  }

  lemma {:induction false} LastPair(xs: seq<HourlyCount>, h: int)
    ensures Assoc.LastValue(Pairs(xs), h).Some? <==> exists i :: 0 <= i < |xs| && xs[i].hour == h
    ensures Assoc.LastValue(Pairs(xs), h).Some? ==> Assoc.LastValue(Pairs(xs), h).value == Latest(xs, h)
    decreases |xs|
  {
    if |xs| > 0 {
      var init := xs[..|xs| - 1];
      assert Pairs(xs)[..|xs| - 1] == Pairs(init);
      LastPair(init, h);
      if exists i :: 0 <= i < |init| && init[i].hour == h {
        var i :| 0 <= i < |init| && init[i].hour == h;
        assert xs[i].hour == h;
      }
      if exists i :: 0 <= i < |xs| && xs[i].hour == h {
        var i :| 0 <= i < |xs| && xs[i].hour == h;
        if i < |init| {
          assert init[i].hour == h;
        }
      }
    }
  }

  /** Reading an hour back from the series gives the last sample for it. */
  lemma SeriesIsLatest(data: Option<seq<HourlyCount>>)
    ensures forall h :: Get(Series(data), h) == Latest(data.GetOr([]), h)
  {
    forall h
      ensures Get(Series(data), h) == Latest(data.GetOr([]), h)
    {
      Assoc.FoldLastWins(map[], Pairs(data.GetOr([])), h);
      LastPair(data.GetOr([]), h);
    }
  }

  /** The label of hour `h`: its decimal digits followed by ":00". */
  function Label(h: nat): string {
    NatToString(h) + ":00"
  }

  /**
   * The 24 bars. Each hour shows the last sample of each series for it, or
   * 0; samples for hours outside 0..23 show nowhere; a missing series is an
   * empty one.
   */
  function Chart(clickData: Option<seq<HourlyCount>>, eventData: Option<seq<HourlyCount>>): (bars: seq<Bar>)
    ensures |bars| == Hours
    ensures forall h :: 0 <= h < Hours ==> bars[h].hour == Label(h)
    ensures forall h :: 0 <= h < Hours ==> bars[h].clicks == Latest(clickData.GetOr([]), h)
    ensures forall h :: 0 <= h < Hours ==> bars[h].events == Latest(eventData.GetOr([]), h)
  {
    var clicks := Series(clickData);
    var events := Series(eventData);
    SeriesIsLatest(clickData);
    SeriesIsLatest(eventData);
    seq(Hours, h requires 0 <= h < Hours => Bar(Label(h), Get(clicks, h), Get(events, h)))
  }

  /** Some hour has a click or an event. */
  function HasData(bars: seq<Bar>): (r: bool)
    ensures r <==> exists i :: 0 <= i < |bars| && (bars[i].clicks > 0 || bars[i].events > 0)
    decreases |bars|
  {
    if |bars| == 0 then false
    else if bars[0].clicks > 0 || bars[0].events > 0 then true
    else
      var r := HasData(bars[1..]);
      assert forall i :: 1 <= i < |bars| ==> bars[1..][i - 1] == bars[i];
      r
  }

  /**
   * The chart is drawn exactly when some hour in 0..23 has a positive last
   * click or event count; negative and zero counts alone leave it empty.
   */
  lemma DrawnIffSomePositiveHour(clickData: Option<seq<HourlyCount>>, eventData: Option<seq<HourlyCount>>)
    ensures HasData(Chart(clickData, eventData)) <==>
      exists h :: 0 <= h < Hours && (Latest(clickData.GetOr([]), h) > 0 || Latest(eventData.GetOr([]), h) > 0)
  {
    var bars := Chart(clickData, eventData);
    if HasData(bars) {
      var h :| 0 <= h < |bars| && (bars[h].clicks > 0 || bars[h].events > 0);
      assert Latest(clickData.GetOr([]), h) > 0 || Latest(eventData.GetOr([]), h) > 0;
    }
  }

  /** A sample for an hour outside 0..23 changes nothing, wherever it comes. */
  lemma {:induction false} OutOfRangeIgnored(xs: seq<HourlyCount>, s: HourlyCount, ys: seq<HourlyCount>, eventData: Option<seq<HourlyCount>>)
    requires s.hour < 0 || s.hour >= Hours
    ensures Chart(Some(xs + [s] + ys), eventData) == Chart(Some(xs + ys), eventData)
    ensures Chart(eventData, Some(xs + [s] + ys)) == Chart(eventData, Some(xs + ys))
  {
    forall h | 0 <= h < Hours
      ensures Latest(xs + [s] + ys, h) == Latest(xs + ys, h)
    {
      LatestSkips(xs, s, ys, h);
    }
  }

  lemma {:induction false} LatestSkips(xs: seq<HourlyCount>, s: HourlyCount, ys: seq<HourlyCount>, h: int)
    requires s.hour != h
    ensures Latest(xs + [s] + ys, h) == Latest(xs + ys, h)
    decreases |ys|
  {
    if |ys| == 0 {
      assert xs + [s] + ys == xs + [s];
      assert (xs + [s])[..|xs|] == xs;
      assert xs + ys == xs;
    } else {
      var init := ys[..|ys| - 1];
      assert (xs + [s] + ys)[..|xs + [s] + ys| - 1] == xs + [s] + init;
      assert (xs + ys)[..|xs + ys| - 1] == xs + init;
      LatestSkips(xs, s, init, h);
    }
  }

  /** A later sample for an hour overrides every earlier one. */
  lemma LaterSampleWins(xs: seq<HourlyCount>, s: HourlyCount, eventData: Option<seq<HourlyCount>>)
    requires 0 <= s.hour < Hours
    ensures Chart(Some(xs + [s]), eventData)[s.hour].clicks == s.count
  {
  }
}
