/**
 * Post-processing of the stats queries: regrouping raw user-agent and
 * referrer counts into browser, OS and host buckets, and turning a bucket
 * map into a list sorted by count and cut to a limit. The user-agent and
 * URL parsers are parameters.
 */
module UaHelper {
  import opened Wrappers
  import opened StatsTypes

  /** Bucket name to count, as Go's `map[string]int64`. */
  type Counts = map<string, int>

  /** What the user-agent parser reports; either name may be empty. */
  datatype UaInfo = UaInfo(browser: string, os: string)

  const UnknownName: string := "Unknown"
  const DirectName: string := "(direct)"

  /** An empty browser or OS name is counted as "Unknown". */
  function OrUnknown(name: string): (r: string)
    ensures r != ""
    ensures name != "" ==> r == name
  {
    if name == "" then UnknownName else name
  }

  /**
   * The host of a referrer URL. `hostOf` is the URL parser: `None` when
   * the text does not parse, otherwise the host, which may be empty.
   */
  function NormalizeReferrerHost(ref: string, hostOf: string -> Option<string>): (r: string)
    ensures r != ""
    ensures ref == "" ==> r == DirectName
    ensures ref != "" ==> r == ref || hostOf(ref) == Some(r)
    ensures ref != "" && hostOf(ref).Some? && hostOf(ref).value != "" ==> r == hostOf(ref).value
  {
    if ref == "" then DirectName
    else match hostOf(ref)
      case None => ref
      case Some(host) => if host == "" then ref else host
  }

  /** How raw rows are regrouped: by browser, by OS, or by referrer host. */
  datatype Grouping =
    | ByBrowser(parse: string -> UaInfo)
    | ByOs(parse: string -> UaInfo)
    | ByHost(hostOf: string -> Option<string>)

  /** The bucket a raw row's name falls into. */
  function Label(g: Grouping, name: string): (k: string)
    ensures k != ""
  {
    match g
    case ByBrowser(parse) => OrUnknown(parse(name).browser)
    case ByOs(parse) => OrUnknown(parse(name).os)
    case ByHost(hostOf) => NormalizeReferrerHost(name, hostOf)
  }

  /** `m[k] += c`, where a missing key reads as 0. */
  function AddTo(m: Counts, k: string, c: int): (r: Counts)
    ensures r.Keys == m.Keys + {k}
    ensures r[k] == (if k in m then m[k] else 0) + c
    ensures forall j :: j in m && j != k ==> r[j] == m[j]
  {
    m[k := (if k in m then m[k] else 0) + c]
  }

  /** The bucket map built by adding each row's count to its row's bucket, in order. */
  function Tally(xs: seq<NameCount>, g: Grouping): Counts
    decreases |xs|
  {
    if |xs| == 0 then map[]
    else AddTo(Tally(xs[..|xs| - 1], g), Label(g, xs[|xs| - 1].name), xs[|xs| - 1].count)
  }

  /** The sum of the counts of the rows that fall into bucket `k`. */
  function BucketSum(xs: seq<NameCount>, g: Grouping, k: string): int
    decreases |xs|
  {
    if |xs| == 0 then 0
    else BucketSum(xs[..|xs| - 1], g, k) + (if Label(g, xs[|xs| - 1].name) == k then xs[|xs| - 1].count else 0)
  }

  /** Each bucket holds exactly the counts of the rows that fall into it. */
  lemma {:induction false} TallyBuckets(xs: seq<NameCount>, g: Grouping, k: string)
    ensures k in Tally(xs, g) ==> Tally(xs, g)[k] == BucketSum(xs, g, k)
    ensures k !in Tally(xs, g) ==> BucketSum(xs, g, k) == 0
    decreases |xs|
  {
    if |xs| > 0 {
      TallyBuckets(xs[..|xs| - 1], g, k);
    }
  }

  // ---- sums over an enumeration of a bucket map ----

  predicate Distinct(ks: seq<string>) {
    forall i, j :: 0 <= i < j < |ks| ==> ks[i] != ks[j]
  }

  function SumValues(m: Counts, ks: seq<string>): int
    requires forall i :: 0 <= i < |ks| ==> ks[i] in m
    decreases |ks|
  {
    if |ks| == 0 then 0 else SumValues(m, ks[..|ks| - 1]) + m[ks[|ks| - 1]]
  }

  lemma {:induction false} SumValuesAppend(m: Counts, a: seq<string>, b: seq<string>)
    requires forall i :: 0 <= i < |a| ==> a[i] in m
    requires forall i :: 0 <= i < |b| ==> b[i] in m
    ensures forall i :: 0 <= i < |a + b| ==> (a + b)[i] in m
    ensures SumValues(m, a + b) == SumValues(m, a) + SumValues(m, b)
    decreases |b|
  {
    if |b| > 0 {
      assert (a + b)[..|a + b| - 1] == a + b[..|b| - 1];
      SumValuesAppend(m, a, b[..|b| - 1]);
    } else {
      assert a + b == a;
    }
  }

  /** Values the enumeration does not visit do not matter. */
  lemma {:induction false} SumValuesFrame(m: Counts, m': Counts, ks: seq<string>)
    requires forall i :: 0 <= i < |ks| ==> ks[i] in m && ks[i] in m' && m[ks[i]] == m'[ks[i]]
    ensures SumValues(m, ks) == SumValues(m', ks)
    decreases |ks|
  {
    if |ks| > 0 {
      SumValuesFrame(m, m', ks[..|ks| - 1]);
    }
  }

  /** Raising one visited bucket by `c` raises the sum by `c`. */
  lemma {:induction false} SumValuesBump(m: Counts, ks: seq<string>, k: string, c: int)
    requires Distinct(ks) && k in m
    requires forall i :: 0 <= i < |ks| ==> ks[i] in m
    requires k in ks
    ensures SumValues(m[k := m[k] + c], ks) == SumValues(m, ks) + c
    decreases |ks|
  {
    var init := ks[..|ks| - 1];
    var m' := m[k := m[k] + c];
    if ks[|ks| - 1] == k {
      SumValuesFrame(m, m', init);
    } else {
      var i :| 0 <= i < |ks| && ks[i] == k;
      assert init[i] == k;
      SumValuesBump(m, init, k, c);
      assert m'[ks[|ks| - 1]] == m[ks[|ks| - 1]];
    }
  }

  /** Taking one position out of an enumeration takes its value out of the sum. */
  lemma SumValuesRemoveAt(m: Counts, b: seq<string>, j: nat)
    requires j < |b|
    requires forall i :: 0 <= i < |b| ==> b[i] in m
    ensures forall y :: y in b[..j] + b[j + 1..] ==> y in m
    ensures SumValues(m, b) == SumValues(m, b[..j] + b[j + 1..]) + m[b[j]]
  {
    assert b == b[..j] + [b[j]] + b[j + 1..];
    SumValuesAppend(m, b[..j] + [b[j]], b[j + 1..]);
    SumValuesAppend(m, b[..j], [b[j]]);
    SumValuesAppend(m, b[..j], b[j + 1..]);
  }

  /** Taking one position out of a list without repeats removes exactly that element. */
  lemma RemoveAtMembers(b: seq<string>, j: nat)
    requires j < |b| && Distinct(b)
    ensures Distinct(b[..j] + b[j + 1..])
    ensures forall y :: y in b[..j] + b[j + 1..] <==> y in b && y != b[j]
  {
    var b' := b[..j] + b[j + 1..];
    assert forall i :: 0 <= i < |b'| ==> b'[i] == b[if i < j then i else i + 1];
    forall y | y in b && y != b[j] ensures y in b'
    {
      var k :| 0 <= k < |b| && b[k] == y;
      if k < j { assert b'[k] == y; } else { assert b'[k - 1] == y; }
    }
  }

  lemma NothingInEmpty(b: seq<string>)
    requires forall x :: x !in b
    ensures b == []
  {
    if b != [] {
      LastIsIn(b);
    }
  }

  lemma LastIsIn(b: seq<string>)
    requires b != []
    ensures b[|b| - 1] in b
  {
  }

  /** Two enumerations of the same buckets, each without repeats, have the same sum. */
  lemma {:induction false} SumValuesPermutation(m: Counts, a: seq<string>, b: seq<string>)
    requires Distinct(a) && Distinct(b)
    requires forall i :: 0 <= i < |a| ==> a[i] in m
    requires forall i :: 0 <= i < |b| ==> b[i] in m
    requires forall x :: x in a <==> x in b
    ensures SumValues(m, a) == SumValues(m, b)
    decreases |a|
  {
    if |a| > 0 {
      var x := a[|a| - 1];
      var a' := a[..|a| - 1];
      assert x in a;
      var j :| 0 <= j < |b| && b[j] == x;
      SumValuesRemoveAt(m, b, j);
      RemoveAtMembers(b, j);
      RemoveAtMembers(a, |a| - 1);
      assert a[..|a| - 1] + a[|a|..] == a';
      forall y ensures y in a' <==> y in b[..j] + b[j + 1..] {
        assert y in a' <==> y in a && y != x;
        assert y in b[..j] + b[j + 1..] <==> y in b && y != x;
      }
      SumValuesPermutation(m, a', b[..j] + b[j + 1..]);
    } else {
      NothingInEmpty(b);
    }
  }

  /** The bucket names in order of first appearance. */
  function Labels(xs: seq<NameCount>, g: Grouping): seq<string>
    decreases |xs|
  {
    if |xs| == 0 then []
    else
      var ls := Labels(xs[..|xs| - 1], g);
      var k := Label(g, xs[|xs| - 1].name);
      if k in ls then ls else ls + [k]
  }

  /** The first-appearance list names every bucket exactly once. */
  lemma {:induction false} LabelsEnumerateTally(xs: seq<NameCount>, g: Grouping)
    ensures Distinct(Labels(xs, g))
    ensures forall k :: k in Tally(xs, g) <==> k in Labels(xs, g)
    decreases |xs|
  {
    if |xs| > 0 {
      LabelsEnumerateTally(xs[..|xs| - 1], g);
    }
  }

  /** A bucket exists exactly for the labels of the rows. */
  lemma {:induction false} LabelsOfRows(xs: seq<NameCount>, g: Grouping, k: string)
    ensures k in Labels(xs, g) <==> exists i :: 0 <= i < |xs| && Label(g, xs[i].name) == k
    decreases |xs|
  {
    if |xs| > 0 {
      var init := xs[..|xs| - 1];
      var last := |xs| - 1;
      LabelsOfRows(init, g, k);
      assert k in Labels(xs, g) <==> k in Labels(init, g) || Label(g, xs[last].name) == k;
      if exists i :: 0 <= i < |xs| && Label(g, xs[i].name) == k {
        var i :| 0 <= i < |xs| && Label(g, xs[i].name) == k;
        if i < last {
          assert init[i] == xs[i];
        }
      }
      if k in Labels(init, g) {
        var i :| 0 <= i < |init| && Label(g, init[i].name) == k;
        assert init[i] == xs[i];
      }
    }
  }

  /** Adding to a bucket already listed raises the listed sum by the amount added. */
  lemma AddToListed(t: Counts, ls: seq<string>, k: string, c: int)
    requires Distinct(ls) && k in ls
    requires forall x :: x in t <==> x in ls
    ensures forall x :: x in AddTo(t, k, c) <==> x in ls
    ensures SumValues(AddTo(t, k, c), ls) == SumValues(t, ls) + c
  {
    assert AddTo(t, k, c) == t[k := t[k] + c];
    SumValuesBump(t, ls, k, c);
  }

  /** Adding a new bucket and listing it last raises the sum by the amount added. */
  lemma AddToUnlisted(t: Counts, ls: seq<string>, k: string, c: int)
    requires k !in ls
    requires forall x :: x in t <==> x in ls
    ensures forall x :: x in AddTo(t, k, c) <==> x in ls + [k]
    ensures SumValues(AddTo(t, k, c), ls + [k]) == SumValues(t, ls) + c
  {
    var t' := t[k := c];
    assert AddTo(t, k, c) == t';
    forall x
      ensures x in t' <==> x in ls + [k]
    {
      assert x in ls + [k] <==> x in ls || x == k;
    }
    assert forall i :: 0 <= i < |ls| ==> ls[i] in t && ls[i] != k;
    SumValuesFrame(t, t', ls);
    var s := ls + [k];
    assert s[..|s| - 1] == ls;
  }

  /** The buckets add up to the rows. */
  lemma {:induction false} TallyTotal(xs: seq<NameCount>, g: Grouping)
    ensures Distinct(Labels(xs, g))
    ensures forall k :: k in Tally(xs, g) <==> k in Labels(xs, g)
    ensures SumValues(Tally(xs, g), Labels(xs, g)) == SumCounts(xs)
    decreases |xs|
  {
    LabelsEnumerateTally(xs, g);
    if |xs| > 0 {
      var init := xs[..|xs| - 1];
      var k := Label(g, xs[|xs| - 1].name);
      var c := xs[|xs| - 1].count;
      TallyTotal(init, g);
      assert Tally(xs, g) == AddTo(Tally(init, g), k, c);
      assert SumCounts(xs) == SumCounts(init) + c;
      if k in Labels(init, g) {
        assert Labels(xs, g) == Labels(init, g);
        AddToListed(Tally(init, g), Labels(init, g), k, c);
      } else {
        assert Labels(xs, g) == Labels(init, g) + [k];
        AddToUnlisted(Tally(init, g), Labels(init, g), k, c);
      }
    }
  }

  // ---- sorting and truncation ----

  /** The names of a list of buckets. */
  function NamesOf(r: seq<NameCount>): (ns: seq<string>)
    ensures |ns| == |r|
    ensures forall i :: 0 <= i < |r| ==> ns[i] == r[i].name
  {
    seq(|r|, i requires 0 <= i < |r| => r[i].name)
  }

  /** Every row is a bucket of `m` with its count. */
  predicate EntriesOf(r: seq<NameCount>, m: Counts) {
    forall i :: 0 <= i < |r| ==> r[i].name in m && r[i].count == m[r[i].name]
  }

  predicate SortedByCount(r: seq<NameCount>) {
    forall i, j :: 0 <= i < j < |r| ==> r[i].count >= r[j].count
  }

  /** The number of rows kept: all of them, or `limit` when it is positive and smaller. */
  function Kept(size: int, limit: int): int {
    if limit > 0 && size > limit then limit else size
  }

  lemma {:induction false} MaxKeyExists(s: set<string>, m: Counts)
    requires s != {} && s <= m.Keys
    ensures exists n :: n in s && forall k :: k in s ==> m[k] <= m[n]
    decreases |s|
  {
    var x :| x in s;
    if s != {x} {
      MaxKeyExists(s - {x}, m);
      var n :| n in s - {x} && forall k :: k in s - {x} ==> m[k] <= m[n];
      if m[x] > m[n] {
        assert forall k :: k in s ==> m[k] <= m[x];
      } else {
        assert forall k :: k in s ==> m[k] <= m[n];
      }
    }
  }

  /**
   * Part way through selecting buckets by decreasing count: `all` holds
   * the buckets taken so far, sorted, and every bucket still in `rest` is
   * no larger than any of them.
   */
  predicate Selection(m: Counts, all: seq<NameCount>, rest: set<string>) {
    && rest <= m.Keys
    && |all| + |rest| == |m|
    && EntriesOf(all, m) && Distinct(NamesOf(all)) && SortedByCount(all)
    && (forall i :: 0 <= i < |all| ==> all[i].name !in rest)
    && (forall n :: n in m && n !in rest ==> n in NamesOf(all))
    && (forall n, i :: n in rest && 0 <= i < |all| ==> m[n] <= all[i].count)
  }

  /** Taking a largest remaining bucket keeps the selection invariant. */
  lemma SelectLargest(m: Counts, all: seq<NameCount>, rest: set<string>, n: string)
    requires Selection(m, all, rest)
    requires n in rest && forall k :: k in rest ==> m[k] <= m[n]
    ensures Selection(m, all + [NameCount(n, m[n])], rest - {n})
  {
    var all' := all + [NameCount(n, m[n])];
    assert NamesOf(all') == NamesOf(all) + [n];
    assert n !in NamesOf(all);
  }

  /** Selection sort of the buckets by decreasing count. */
  method SortBuckets(m: Counts) returns (all: seq<NameCount>)
    ensures |all| == |m|
    ensures EntriesOf(all, m) && Distinct(NamesOf(all)) && SortedByCount(all)
    ensures forall n :: n in m ==> n in NamesOf(all)
  {
    var rest := m.Keys;
    all := [];
    while rest != {}
      invariant Selection(m, all, rest)
      decreases |rest|
    {
      MaxKeyExists(rest, m);
      var n :| n in rest && forall k :: k in rest ==> m[k] <= m[n];
      SelectLargest(m, all, rest, n);
      all := all + [NameCount(n, m[n])];
      rest := rest - {n};
    }
  }

  /**
   * `mapToSortedNameCounts`: the buckets as rows by decreasing count, cut
   * to `limit` when it is positive. Go sorts with an unstable sort, so the
   * order of equal counts is not determined; any order this returns is one
   * the source can produce.
   */
  method MapToSortedNameCounts(m: Counts, limit: int) returns (r: seq<NameCount>)
    ensures |r| == Kept(|m|, limit)
    ensures EntriesOf(r, m) && Distinct(NamesOf(r)) && SortedByCount(r)
    ensures forall n :: n in m && n !in NamesOf(r) ==> forall i :: 0 <= i < |r| ==> m[n] <= r[i].count
    ensures |r| == |m| ==> forall n :: n in m ==> n in NamesOf(r)
  {
    var all := SortBuckets(m);
    r := all[..Kept(|m|, limit)];
    PrefixKeeps(all, m, |r|);
    forall n | n in m && n !in NamesOf(r)
      ensures forall i :: 0 <= i < |r| ==> m[n] <= r[i].count
    {
      var j :| 0 <= j < |all| && NamesOf(all)[j] == n;
      assert j >= |r|;
      assert all[j].count == m[n];
      forall i | 0 <= i < |r|
        ensures m[n] <= r[i].count
      {
        assert r[i] == all[i] && all[i].count >= all[j].count;
      }
    }
    if |r| == |m| {
      assert r == all;
    }
  }

  /** A prefix of a sorted list of entries without repeats is one too. */
  lemma PrefixKeeps(all: seq<NameCount>, m: Counts, n: nat)
    requires n <= |all|
    requires EntriesOf(all, m) && Distinct(NamesOf(all)) && SortedByCount(all)
    ensures NamesOf(all[..n]) == NamesOf(all)[..n]
    ensures EntriesOf(all[..n], m) && Distinct(NamesOf(all[..n])) && SortedByCount(all[..n])
  {
    assert NamesOf(all[..n]) == NamesOf(all)[..n];
  }

  /** A sorted list of entries without repeats visits the buckets it names, so its total is their sum. */
  lemma {:induction false} RowsTotal(r: seq<NameCount>, m: Counts)
    requires EntriesOf(r, m)
    ensures SumCounts(r) == SumValues(m, NamesOf(r))
    decreases |r|
  {
    if |r| > 0 {
      var init := r[..|r| - 1];
      assert NamesOf(r)[..|r| - 1] == NamesOf(init);
      RowsTotal(init, m);
    }
  }

  /** Rows listing every bucket of a tally once, with its count, add up to the raw rows. */
  lemma ListedBucketsTotal(xs: seq<NameCount>, g: Grouping, r: seq<NameCount>)
    requires EntriesOf(r, Tally(xs, g)) && Distinct(NamesOf(r))
    requires forall n :: n in Tally(xs, g) ==> n in NamesOf(r)
    ensures SumCounts(r) == SumCounts(xs)
  {
    var m := Tally(xs, g);
    TallyTotal(xs, g);
    RowsTotal(r, m);
    forall x ensures x in NamesOf(r) <==> x in Labels(xs, g)
    {
      if x in NamesOf(r) {
        var i :| 0 <= i < |r| && NamesOf(r)[i] == x;
        assert r[i].name in m;
      }
    }
    SumValuesPermutation(m, NamesOf(r), Labels(xs, g));
  }

  /** The buckets of a tally are the labels of its rows. */
  lemma TallyKeys(xs: seq<NameCount>, g: Grouping, k: string)
    ensures k in Tally(xs, g) <==> exists i :: 0 <= i < |xs| && Label(g, xs[i].name) == k
  {
    LabelsEnumerateTally(xs, g);
    LabelsOfRows(xs, g, k);
  }

  /** Regroups raw rows and sorts the buckets; the shared part of the distribution queries. */
  method Regroup(xs: seq<NameCount>, g: Grouping, limit: int) returns (r: seq<NameCount>)
    ensures |r| == Kept(|Tally(xs, g)|, limit)
    ensures SortedByCount(r) && Distinct(NamesOf(r))
    ensures forall i :: 0 <= i < |r| ==> r[i].name != "" && r[i].count == BucketSum(xs, g, r[i].name)
    ensures forall i :: 0 <= i < |r| ==> exists j :: 0 <= j < |xs| && Label(g, xs[j].name) == r[i].name
    ensures forall n :: n in Tally(xs, g) && n !in NamesOf(r) ==>
      forall i :: 0 <= i < |r| ==> BucketSum(xs, g, n) <= r[i].count
    ensures limit <= 0 ==> SumCounts(r) == SumCounts(xs)
  {
    var m := Tally(xs, g);
    r := MapToSortedNameCounts(m, limit);
    forall n | n in m
      ensures m[n] == BucketSum(xs, g, n)
    {
      TallyBuckets(xs, g, n);
    }
    forall i | 0 <= i < |r|
      ensures r[i].name != "" && r[i].count == BucketSum(xs, g, r[i].name)
      ensures exists j :: 0 <= j < |xs| && Label(g, xs[j].name) == r[i].name
    {
      TallyBuckets(xs, g, r[i].name);
      TallyKeys(xs, g, r[i].name);
    }
    if limit <= 0 {
      ListedBucketsTotal(xs, g, r);
    }
  }

  /** `ParseUADistribution`: browser and OS distributions of raw user-agent counts. */
  method ParseUADistribution(uaCounts: seq<NameCount>, parse: string -> UaInfo, limit: int)
    returns (browsers: seq<NameCount>, oses: seq<NameCount>)
    ensures SortedByCount(browsers) && SortedByCount(oses)
    ensures Distinct(NamesOf(browsers)) && Distinct(NamesOf(oses))
    ensures |browsers| == Kept(|Tally(uaCounts, ByBrowser(parse))|, limit)
    ensures |oses| == Kept(|Tally(uaCounts, ByOs(parse))|, limit)
    ensures forall i :: 0 <= i < |browsers| ==>
      browsers[i].count == BucketSum(uaCounts, ByBrowser(parse), browsers[i].name) && browsers[i].name != ""
    ensures forall i :: 0 <= i < |oses| ==>
      oses[i].count == BucketSum(uaCounts, ByOs(parse), oses[i].name) && oses[i].name != ""
    ensures forall n :: n in Tally(uaCounts, ByBrowser(parse)) && n !in NamesOf(browsers) ==>
      forall i :: 0 <= i < |browsers| ==> BucketSum(uaCounts, ByBrowser(parse), n) <= browsers[i].count
    ensures forall n :: n in Tally(uaCounts, ByOs(parse)) && n !in NamesOf(oses) ==>
      forall i :: 0 <= i < |oses| ==> BucketSum(uaCounts, ByOs(parse), n) <= oses[i].count
    ensures limit <= 0 ==> SumCounts(browsers) == SumCounts(uaCounts) && SumCounts(oses) == SumCounts(uaCounts)
  {
    browsers := Regroup(uaCounts, ByBrowser(parse), limit);
    oses := Regroup(uaCounts, ByOs(parse), limit);
  }

  /** The referrer regrouping of the top-referrers query: raw referrers by host. */
  method TopReferrerHosts(raw: seq<NameCount>, hostOf: string -> Option<string>, limit: int) returns (r: seq<NameCount>)
    ensures SortedByCount(r) && Distinct(NamesOf(r))
    ensures |r| == Kept(|Tally(raw, ByHost(hostOf))|, limit)
    ensures forall i :: 0 <= i < |r| ==> r[i].count == BucketSum(raw, ByHost(hostOf), r[i].name)
    ensures forall i :: 0 <= i < |r| ==>
      exists j :: 0 <= j < |raw| && NormalizeReferrerHost(raw[j].name, hostOf) == r[i].name
    ensures forall n :: n in Tally(raw, ByHost(hostOf)) && n !in NamesOf(r) ==>
      forall i :: 0 <= i < |r| ==> BucketSum(raw, ByHost(hostOf), n) <= r[i].count
    ensures limit <= 0 ==> SumCounts(r) == SumCounts(raw)
  {
    r := Regroup(raw, ByHost(hostOf), limit);
  }
}
