/** Trading comparables: each peer's valuation multiples, and the minimum,
    maximum and median of each multiple across the peers that have it. */
module Comps {
  import opened JsValues

  /** A peer as `buildComps` reads it; `name` stands for the fields it copies
      through untouched. */
  datatype Peer = Peer(
    name: string, ev: Option<real>, revenue: Option<real>, ebitda: Option<real>,
    marketCap: Option<real>, netIncome: Option<real>)

  /** The peer with its three multiples added. */
  datatype CompRow = CompRow(peer: Peer, evRevenue: Option<real>, evEbitda: Option<real>, pe: Option<real>)

  /** `num && den ? num / den : null` */
  function Multiple(num: Option<real>, den: Option<real>): (m: Option<real>)
    ensures m.Some? <==> Truthy(num) && Truthy(den)
    ensures m.Some? ==> m.value * den.value == num.value && m.value != 0.0
  {
    if Truthy(num) && Truthy(den) then Some(num.value / den.value) else None
  }

  /** `buildComps(peers)` */
  function BuildComps(peers: seq<Peer>): (rows: seq<CompRow>)
    ensures |rows| == |peers|
    ensures forall i :: 0 <= i < |peers| ==> rows[i].peer == peers[i]
    ensures forall i :: 0 <= i < |peers| ==>
              rows[i].evRevenue == Multiple(peers[i].ev, peers[i].revenue)
              && rows[i].evEbitda == Multiple(peers[i].ev, peers[i].ebitda)
              && rows[i].pe == Multiple(peers[i].marketCap, peers[i].netIncome)
  {
    seq(|peers|, i requires 0 <= i < |peers| =>
      CompRow(peers[i], Multiple(peers[i].ev, peers[i].revenue), Multiple(peers[i].ev, peers[i].ebitda),
              Multiple(peers[i].marketCap, peers[i].netIncome)))
  }

  // ---------------------------------------------------------------------
  // The values of one multiple

  datatype Metric = EvRevenue | EvEbitda | Pe

  const Metrics: seq<Metric> := [EvRevenue, EvEbitda, Pe]

  /** The key a metric's statistics are stored under. */
  function Key(m: Metric): string
  {
    match m
    case EvRevenue => "evRevenue"
    case EvEbitda => "evEbitda"
    case Pe => "pe"
  }

  /** `item[metric]` */
  function MetricOf(row: CompRow, m: Metric): Option<real>
  {
    match m
    case EvRevenue => row.evRevenue
    case EvEbitda => row.evEbitda
    case Pe => row.pe
  }

  /** `multiples.map((item) => item[metric]).filter(...)`: the metric's values
      in row order, nulls dropped. */
  function MetricValues(rows: seq<CompRow>, m: Metric): (values: seq<real>)
    ensures |values| <= |rows|
  {
    if |rows| == 0 then []
    else if MetricOf(rows[0], m).Some? then [MetricOf(rows[0], m).value] + MetricValues(rows[1..], m)
    else MetricValues(rows[1..], m)
  }

  /** The values are exactly the rows' non-null entries for the metric. */
  lemma {:induction false} MetricValuesArePresentEntries(rows: seq<CompRow>, m: Metric)
    ensures forall x :: x in MetricValues(rows, m) <==> exists i :: 0 <= i < |rows| && MetricOf(rows[i], m) == Some(x)
  {
    if |rows| > 0 {
      MetricValuesArePresentEntries(rows[1..], m);
      assert forall i :: 0 < i < |rows| ==> rows[i] == rows[1..][i - 1];
      forall x | exists i :: 0 <= i < |rows| && MetricOf(rows[i], m) == Some(x)
        ensures x in MetricValues(rows, m)
      {
        var i :| 0 <= i < |rows| && MetricOf(rows[i], m) == Some(x);
        if i > 0 {
          assert MetricOf(rows[1..][i - 1], m) == Some(x);
        }
      }
    }
  }

  // ---------------------------------------------------------------------
  // Minimum, maximum and median

  /** A value of `Math.min`/`Math.max`: over no values these give +Infinity
      and -Infinity. */
  datatype Bound = NegInfinity | Finite(v: real) | PosInfinity

  datatype Stats = Stats(min: Bound, max: Bound, median: Option<real>)

  function Least(s: seq<real>): real
    requires |s| > 0
  {
    if |s| == 1 then s[0]
    else
      var rest := Least(s[1..]);
      if s[0] <= rest then s[0] else rest
  }

  function Greatest(s: seq<real>): real
    requires |s| > 0
  {
    if |s| == 1 then s[0]
    else
      var rest := Greatest(s[1..]);
      if s[0] >= rest then s[0] else rest
  }

  /** `Least` is one of the values and no value is below it. */
  lemma {:induction false} LeastIsMinimum(s: seq<real>)
    requires |s| > 0
    ensures Least(s) in s
    ensures forall x :: x in s ==> Least(s) <= x
  {
    if |s| > 1 {
      LeastIsMinimum(s[1..]);
      assert forall x :: x in s ==> x == s[0] || x in s[1..];
    }
  }

  /** `Greatest` is one of the values and no value is above it. */
  lemma {:induction false} GreatestIsMaximum(s: seq<real>)
    requires |s| > 0
    ensures Greatest(s) in s
    ensures forall x :: x in s ==> x <= Greatest(s)
  {
    if |s| > 1 {
      GreatestIsMaximum(s[1..]);
      assert forall x :: x in s ==> x == s[0] || x in s[1..];
    }
  }

  /** `Math.min(...values)` */
  function MinOf(values: seq<real>): Bound
  {
    if |values| == 0 then PosInfinity else Finite(Least(values))
  }

  /** `Math.max(...values)` */
  function MaxOf(values: seq<real>): Bound
  {
    if |values| == 0 then NegInfinity else Finite(Greatest(values))
  }

  predicate Sorted(s: seq<real>)
  {
    forall i, j :: 0 <= i < j < |s| ==> s[i] <= s[j]
  }

  /** Inserts `x` before the first entry it does not exceed. */
  function Insert(x: real, s: seq<real>): (r: seq<real>)
    ensures |r| == |s| + 1
    ensures multiset(r) == multiset(s) + multiset{x}
  {
    if |s| == 0 then [x]
    else if x <= s[0] then [x] + s
    else
      assert s == [s[0]] + s[1..];
      [s[0]] + Insert(x, s[1..])
  }

  /** Inserting into a sorted sequence keeps it sorted. */
  lemma {:induction false} InsertKeepsSorted(x: real, s: seq<real>)
    requires Sorted(s)
    ensures Sorted(Insert(x, s))
  {
    if |s| > 0 && x > s[0] {
      var rest := Insert(x, s[1..]);
      InsertKeepsSorted(x, s[1..]);
      InsertLowerBound(x, s[1..], s[0]);
      var r := Insert(x, s);
      assert r == [s[0]] + rest;
      forall i, j | 0 <= i < j < |r|
        ensures r[i] <= r[j]
      {
        if i > 0 {
          assert r[i] == rest[i - 1] && r[j] == rest[j - 1];
        } else {
          assert r[j] == rest[j - 1];
        }
      }
    }
  }

  /** A lower bound of `x` and of every entry is a lower bound of the result. */
  lemma {:induction false} InsertLowerBound(x: real, s: seq<real>, lo: real)
    requires lo <= x
    requires forall k :: 0 <= k < |s| ==> lo <= s[k]
    ensures forall k :: 0 <= k < |Insert(x, s)| ==> lo <= Insert(x, s)[k]
  {
    if |s| > 0 && x > s[0] {
      InsertLowerBound(x, s[1..], lo);
      var r, rest := Insert(x, s), Insert(x, s[1..]);
      assert r == [s[0]] + rest;
      forall k | 0 < k < |r|
        ensures lo <= r[k]
      {
        assert r[k] == rest[k - 1];
      }
    }
  }

  /** The values in ascending order: the specification of the in-place sort. */
  function SortSeq(s: seq<real>): (r: seq<real>)
    ensures |r| == |s|
  {
    if |s| == 0 then [] else Insert(s[0], SortSeq(s[1..]))
  }

  /** `SortSeq` orders the values and keeps each as often as it occurs. */
  lemma {:induction false} SortSeqSorts(s: seq<real>)
    ensures Sorted(SortSeq(s))
    ensures multiset(SortSeq(s)) == multiset(s)
  {
    if |s| > 0 {
      SortSeqSorts(s[1..]);
      InsertKeepsSorted(s[0], SortSeq(s[1..]));
      assert s == [s[0]] + s[1..];
    }
  }

  /** `values.sort(...)[Math.floor(values.length / 2)] || null`: the upper
      middle value, null when there is none or it is 0. */
  function MedianOf(values: seq<real>): (median: Option<real>)
    ensures |values| == 0 ==> median.None?
    ensures median.Some? ==> median.value != 0.0 && median.value in multiset(values)
  {
    if |values| == 0 then None
    else
      SortSeqSorts(values);
      assert SortSeq(values)[|values| / 2] in multiset(SortSeq(values));
      var m := SortSeq(values)[|values| / 2];
      if m != 0.0 then Some(m) else None
  }

  function StatsOf(values: seq<real>): Stats
  {
    Stats(MinOf(values), MaxOf(values), MedianOf(values))
  }

  /** The least value comes first. */
  lemma SortedHeadIsLeast(a: seq<real>, x: real)
    requires Sorted(a) && x in multiset(a)
    ensures a[0] <= x
  {
    var k :| 0 <= k < |a| && a[k] == x;
  }

  lemma SortedTail(a: seq<real>)
    requires Sorted(a) && |a| > 0
    ensures Sorted(a[1..])
    ensures multiset(a[1..]) == multiset(a) - multiset{a[0]}
  {
    assert a == [a[0]] + a[1..];
  }

  lemma SameHeadSameTail(a: seq<real>, b: seq<real>)
    requires |a| > 0 && |b| > 0 && a[0] == b[0] && a[1..] == b[1..]
    ensures a == b
  {
    assert a == [a[0]] + a[1..] && b == [b[0]] + b[1..];
  }

  /** Two sorted arrangements of the same values are the same sequence. */
  lemma {:induction false} SortedUnique(a: seq<real>, b: seq<real>)
    requires Sorted(a) && Sorted(b) && multiset(a) == multiset(b)
    ensures a == b
  {
    assert |a| == |multiset(a)| == |multiset(b)| == |b|;
    if |a| > 0 {
      assert a[0] in multiset(a) && b[0] in multiset(b);
      SortedHeadIsLeast(a, b[0]);
      SortedHeadIsLeast(b, a[0]);
      assert a[0] == b[0];
      SortedTail(a);
      SortedTail(b);
      SortedUnique(a[1..], b[1..]);
      SameHeadSameTail(a, b);
    }
  }

  // ---------------------------------------------------------------------
  // The summary

  /** Swaps two entries of the array. */
  method Swap(a: array<real>, i: int, j: int)
    requires 0 <= i < a.Length && 0 <= j < a.Length
    modifies a
    ensures a[..] == old(a[..])[i := old(a[j])][j := old(a[i])]
    ensures multiset(a[..]) == multiset(old(a[..]))
  {
    a[i], a[j] := a[j], a[i];
  }

  /** `values.sort((a, b) => a - b)`: ascending, in place, by insertion. */
  method SortInPlace(a: array<real>)
    modifies a
    ensures Sorted(a[..])
    ensures multiset(a[..]) == multiset(old(a[..]))
  {
    var i := 0;
    while i < a.Length
      invariant 0 <= i <= a.Length
      invariant forall p, q :: 0 <= p < q < i ==> a[p] <= a[q]
      invariant multiset(a[..]) == multiset(old(a[..]))
    {
      var j := i;
      while j > 0 && a[j - 1] > a[j]
        invariant 0 <= j <= i
        invariant forall p, q :: 0 <= p < q <= i && q != j ==> a[p] <= a[q]
        invariant multiset(a[..]) == multiset(old(a[..]))
      {
        Swap(a, j - 1, j);
        j := j - 1;
      }
      i := i + 1;
    }
  }

  /** One metric's entry of the summary: its values are copied into a fresh
      array, which is sorted to pick the median. */
  method MetricStats(multiples: seq<CompRow>, metric: Metric) returns (stats: Stats)
    ensures stats == StatsOf(MetricValues(multiples, metric))
  {
    var values := MetricValues(multiples, metric);
    var sorted := new real[|values|](i requires 0 <= i < |values| => values[i]);
    assert sorted[..] == values;
    SortInPlace(sorted);
    SortSeqSorts(values);
    SortedUnique(sorted[..], SortSeq(values));
    var median := None;
    if sorted.Length > 0 && sorted[sorted.Length / 2] != 0.0 {
      median := Some(sorted[sorted.Length / 2]);
    }
    stats := Stats(MinOf(values), MaxOf(values), median);
  }

  /** The summary after the first `k` metrics have been filled in. */
  function SummaryUpTo(multiples: seq<CompRow>, k: nat): map<string, Stats>
    requires k <= |Metrics|
  {
    if k == 0 then map[]
    else SummaryUpTo(multiples, k - 1)[Key(Metrics[k - 1]) := StatsOf(MetricValues(multiples, Metrics[k - 1]))]
  }

  /** Once all three metrics are filled in, the summary has exactly their keys,
      each holding that metric's statistics. */
  lemma SummaryHasEachMetric(multiples: seq<CompRow>)
    ensures SummaryUpTo(multiples, 3).Keys == {Key(EvRevenue), Key(EvEbitda), Key(Pe)}
    ensures SummaryUpTo(multiples, 3)[Key(EvRevenue)] == StatsOf(MetricValues(multiples, EvRevenue))
    ensures SummaryUpTo(multiples, 3)[Key(EvEbitda)] == StatsOf(MetricValues(multiples, EvEbitda))
    ensures SummaryUpTo(multiples, 3)[Key(Pe)] == StatsOf(MetricValues(multiples, Pe))
  {
    SummaryStages(multiples);
    KeysDistinct();
    ThreeDistinctKeys(Key(EvRevenue), Key(EvEbitda), Key(Pe),
                      StatsOf(MetricValues(multiples, EvRevenue)),
                      StatsOf(MetricValues(multiples, EvEbitda)),
                      StatsOf(MetricValues(multiples, Pe)));
  }

  /** The summary is filled in metric by metric, in the order of `Metrics`. */
  lemma SummaryStages(multiples: seq<CompRow>)
    ensures SummaryUpTo(multiples, 3)
            == map[Key(EvRevenue) := StatsOf(MetricValues(multiples, EvRevenue))]
                  [Key(EvEbitda) := StatsOf(MetricValues(multiples, EvEbitda))]
                  [Key(Pe) := StatsOf(MetricValues(multiples, Pe))]
  {
    assert Metrics[0] == EvRevenue && Metrics[1] == EvEbitda && Metrics[2] == Pe;
    assert SummaryUpTo(multiples, 0) == map[];
    assert SummaryUpTo(multiples, 1) == map[Key(EvRevenue) := StatsOf(MetricValues(multiples, EvRevenue))];
    assert SummaryUpTo(multiples, 2)
           == SummaryUpTo(multiples, 1)[Key(EvEbitda) := StatsOf(MetricValues(multiples, EvEbitda))];
  }

  /** The three metrics are stored under different keys. */
  lemma KeysDistinct()
    ensures Key(EvRevenue) != Key(EvEbitda) && Key(EvRevenue) != Key(Pe) && Key(EvEbitda) != Key(Pe)
  {
    assert |Key(EvRevenue)| == 9 && |Key(EvEbitda)| == 8 && |Key(Pe)| == 2;
  }

  /** A map built from three distinct keys has exactly those keys and their values. */
  lemma ThreeDistinctKeys(k1: string, k2: string, k3: string, v1: Stats, v2: Stats, v3: Stats)
    requires k1 != k2 && k1 != k3 && k2 != k3
    ensures var m := map[k1 := v1][k2 := v2][k3 := v3];
            m.Keys == {k1, k2, k3} && m[k1] == v1 && m[k2] == v2 && m[k3] == v3
  {
  }

  /** `summarizeComps(multiples)`: for each of the three multiples, its
      minimum, maximum and median over the rows that have it. The rows are
      not changed; only a fresh copy of each metric's values is sorted. */
  method SummarizeComps(multiples: seq<CompRow>) returns (summary: map<string, Stats>)
    ensures summary.Keys == {Key(EvRevenue), Key(EvEbitda), Key(Pe)}
    ensures summary[Key(EvRevenue)] == StatsOf(MetricValues(multiples, EvRevenue))
    ensures summary[Key(EvEbitda)] == StatsOf(MetricValues(multiples, EvEbitda))
    ensures summary[Key(Pe)] == StatsOf(MetricValues(multiples, Pe))
  {
    summary := map[];
    for k := 0 to |Metrics|
      invariant summary == SummaryUpTo(multiples, k)
    {
      var stats := MetricStats(multiples, Metrics[k]);
      summary := summary[Key(Metrics[k]) := stats];
    }
    assert summary == SummaryUpTo(multiples, 3);
    SummaryHasEachMetric(multiples);
  }

  // ---------------------------------------------------------------------
  // Properties

  /** A peer's EV/EBITDA and P/E are present exactly when both of their
      operands are truthy, and each is then the quotient of its operands. */
  lemma MultiplesOfARow(peers: seq<Peer>, i: int)
    requires 0 <= i < |peers|
    ensures var row := BuildComps(peers)[i]; var peer := peers[i];
            (row.evEbitda.Some? <==> Truthy(peer.ev) && Truthy(peer.ebitda))
            && (row.evEbitda.Some? ==> row.evEbitda.value * peer.ebitda.value == peer.ev.value)
            && (row.pe.Some? <==> Truthy(peer.marketCap) && Truthy(peer.netIncome))
            && (row.pe.Some? ==> row.pe.value * peer.netIncome.value == peer.marketCap.value)
  {
    var row := BuildComps(peers)[i];
    assert row.evEbitda == Multiple(peers[i].ev, peers[i].ebitda);
    assert row.pe == Multiple(peers[i].marketCap, peers[i].netIncome);
  }

  /** A present median lies between the minimum and the maximum. */
  lemma MedianBetweenMinAndMax(values: seq<real>)
    requires MedianOf(values).Some?
    ensures MinOf(values).Finite? && MaxOf(values).Finite?
    ensures MinOf(values).v <= MedianOf(values).value <= MaxOf(values).v
  {
    var s := SortSeq(values);
    var m := s[|values| / 2];
    SortSeqSorts(values);
    LeastIsMinimum(values);
    GreatestIsMaximum(values);
    assert m in multiset(s);
    assert m in values;
  }

  lemma SortsFiveNineSeven()
    ensures SortSeq([5.0, 9.0, 7.0]) == [5.0, 7.0, 9.0]
  {
    var s := [5.0, 9.0, 7.0];
    assert s[1..] == [9.0, 7.0] && s[1..][1..] == [7.0];
    assert SortSeq([7.0]) == [7.0];
    assert Insert(9.0, [7.0]) == [7.0, 9.0];
    assert Insert(5.0, [7.0, 9.0]) == [5.0, 7.0, 9.0];
  }

  /** Over the values 5, 9 and 7 the minimum is 5, the maximum 9 and the median 7. */
  lemma ThreePeerExample()
    ensures StatsOf([5.0, 9.0, 7.0]) == Stats(Finite(5.0), Finite(9.0), Some(7.0))
  {
    SortsFiveNineSeven();
    assert [5.0, 9.0, 7.0][1..] == [9.0, 7.0];
    assert Least([5.0, 9.0, 7.0]) == 5.0;
    assert Greatest([5.0, 9.0, 7.0]) == 9.0;
  }

  lemma SortsAroundZero()
    ensures SortSeq([-1.0, 0.0, 1.0]) == [-1.0, 0.0, 1.0]
  {
    var s := [-1.0, 0.0, 1.0];
    assert s[1..] == [0.0, 1.0] && s[1..][1..] == [1.0];
    assert SortSeq([1.0]) == [1.0];
    assert Insert(0.0, [1.0]) == [0.0, 1.0];
    assert Insert(-1.0, [0.0, 1.0]) == s;
  }

  /** With no values there is no median and the bounds are infinite; a median
      of 0 is reported as null. */
  lemma MedianNullCases()
    ensures StatsOf([]) == Stats(PosInfinity, NegInfinity, None)
    ensures MedianOf([-1.0, 0.0, 1.0]).None?
  {
    SortsAroundZero();
  }

  /** Rows without the multiple are skipped: their nulls do not count. */
  lemma {:induction false} NullsAreSkipped(rows: seq<CompRow>, m: Metric)
    requires forall i :: 0 <= i < |rows| ==> MetricOf(rows[i], m).None?
    ensures MetricValues(rows, m) == []
    ensures StatsOf(MetricValues(rows, m)) == Stats(PosInfinity, NegInfinity, None)
  {
    if |rows| > 0 {
      assert forall i :: 0 <= i < |rows[1..]| ==> rows[1..][i] == rows[i + 1];
      NullsAreSkipped(rows[1..], m);
    }
  }
}
