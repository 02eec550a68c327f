/**
 * The usage log of the bike-sharing dashboard (dashboard.py): one record per row
 * of the input table, the load step that sorts it by day, the earliest and the
 * latest day of the log, and the inclusive date-range filter.
 */
module UsageLog {
  import opened Optional

  /** A calendar day, already parsed, as the number of days since 1970-01-01. */
  type Day = int

  /** 2011-01-01: 41 years of 365 days after 1970-01-01, plus 10 leap days. */
  const ReferenceDay: Day := 41 * 365 + 10

  /** A normalised temperature reading; the pipeline only carries it through. */
  type Temperature(==, !new)

  /**
   * One row of the input table. `temp` and `atemp` are only carried through to
   * the temperature samples; their numeric content is never inspected.
   */
  datatype Record = Record(
    instant: int,
    dteday: Day,
    season: int,
    holiday: int,
    workingday: int,
    weathersit: int,
    temp: Temperature,
    atemp: Temperature,
    cnt: nat)

  /** The sum of `cnt` over a log. */
  function SumCnt(s: seq<Record>): nat
  {
    if s == [] then 0 else s[0].cnt + SumCnt(s[1..])
  }

  lemma {:induction false} SumCntAppend(a: seq<Record>, b: seq<Record>)
    ensures SumCnt(a + b) == SumCnt(a) + SumCnt(b)
  {
    if a == [] {
      assert a + b == b;
    } else {
      assert (a + b)[1..] == a[1..] + b;
      SumCntAppend(a[1..], b);
    }
  }

  /** Taking one record out of a log takes its `cnt` out of the sum. */
  lemma {:induction false} SumCntRemove(b: seq<Record>, i: nat)
    requires i < |b|
    ensures SumCnt(b) == b[i].cnt + SumCnt(b[..i] + b[i + 1..])
  {
    if i == 0 {
      assert b[..0] + b[1..] == b[1..];
    } else {
      var t := b[1..];
      assert b[..i] + b[i + 1..] == [b[0]] + (t[..i - 1] + t[i..]);
      SumCntRemove(t, i - 1);
    }
  }

  /** The sum of `cnt` does not depend on the order of the records. */
  lemma MultisetRemove<T>(b: seq<T>, i: nat)
    requires i < |b|
    ensures multiset(b[..i] + b[i + 1..]) == multiset(b) - multiset{b[i]}
  {
    assert b == b[..i] + [b[i]] + b[i + 1..];
  }

  lemma {:induction false} SumCntPermutation(a: seq<Record>, b: seq<Record>)
    requires multiset(a) == multiset(b)
    ensures SumCnt(a) == SumCnt(b)
    decreases |a|
  {
    if a == [] {
      assert |b| == |multiset(b)| == 0;
    } else {
      assert a[0] in multiset(b);
      var i :| 0 <= i < |b| && b[i] == a[0];
      var rest := b[..i] + b[i + 1..];
      MultisetRemove(b, i);
      assert a == [a[0]] + a[1..];
      assert multiset(a[1..]) == multiset(a) - multiset{a[0]};
      SumCntPermutation(a[1..], rest);
      SumCntRemove(b, i);
    }
  }

  /** The log is non-decreasing in `dteday`. */
  ghost predicate SortedByDay(s: seq<Record>)
  {
    forall i, j :: 0 <= i <= j < |s| ==> s[i].dteday <= s[j].dteday
  }

  // ---------------------------------------------------------------------
  // Load: sort_values(by="dteday", inplace=True)
  // ---------------------------------------------------------------------

  /** Prepending a record no later than the head keeps a log sorted. */
  lemma SortedCons(a: Record, t: seq<Record>)
    requires SortedByDay(t)
    requires t != [] ==> a.dteday <= t[0].dteday
    ensures SortedByDay([a] + t)
  {
    var r := [a] + t;
    forall i, j | 0 <= i <= j < |r| ensures r[i].dteday <= r[j].dteday {
      if i == 0 && j > 0 {
        assert r[j] == t[j - 1];
      } else if i > 0 {
        assert r[i] == t[i - 1] && r[j] == t[j - 1];
      }
    }
  }

  /** Inserts `x` into a log sorted by day, after every record of a day <= x's. */
  function InsertByDay(s: seq<Record>, x: Record): (r: seq<Record>)
    requires SortedByDay(s)
    ensures SortedByDay(r)
    ensures multiset(r) == multiset(s) + multiset{x}
    ensures r[0] == x || (s != [] && r[0] == s[0])
  {
    if s == [] || x.dteday < s[0].dteday then
      SortedCons(x, s);
      [x] + s
    else
      assert s == [s[0]] + s[1..];
      var t := InsertByDay(s[1..], x);
      assert t[0] == x || t[0] == s[1];
      SortedCons(s[0], t);
      [s[0]] + t
  }

  /** Sorts the raw log by day, as the dashboard does once after reading the table. */
  method SortByDay(raw: seq<Record>) returns (all: seq<Record>)
    ensures SortedByDay(all)
    ensures multiset(all) == multiset(raw)
  {
    all := [];
    var i := 0;
    while i < |raw|
      invariant 0 <= i <= |raw|
      invariant SortedByDay(all)
      invariant multiset(all) == multiset(raw[..i])
    {
      assert raw[..i + 1] == raw[..i] + [raw[i]];
      all := InsertByDay(all, raw[i]);
      i := i + 1;
    }
    assert raw[..|raw|] == raw;
  }

  // ---------------------------------------------------------------------
  // min_date / max_date
  // ---------------------------------------------------------------------

  /** `d` is the least day of the log. */
  ghost predicate IsLeastDay(s: seq<Record>, d: Day)
  {
    (exists x :: x in s && x.dteday == d) && forall x :: x in s ==> d <= x.dteday
  }

  /** `d` is the greatest day of the log. */
  ghost predicate IsGreatestDay(s: seq<Record>, d: Day)
  {
    (exists x :: x in s && x.dteday == d) && forall x :: x in s ==> x.dteday <= d
  }

  /** The earliest day of a non-empty log. */
  function MinDay(s: seq<Record>): (d: Day)
    requires s != []
    ensures IsLeastDay(s, d)
  {
    if |s| == 1 then s[0].dteday
    else
      var m := MinDay(s[1..]);
      assert forall x :: x in s ==> x == s[0] || x in s[1..];
      if s[0].dteday <= m then s[0].dteday else m
  }

  /** The latest day of a non-empty log. */
  function MaxDay(s: seq<Record>): (d: Day)
    requires s != []
    ensures IsGreatestDay(s, d)
  {
    if |s| == 1 then s[0].dteday
    else
      var m := MaxDay(s[1..]);
      assert forall x :: x in s ==> x == s[0] || x in s[1..];
      if m <= s[0].dteday then s[0].dteday else m
  }

  /** In a sorted log the earliest day is the first record's and the latest the last one's. */
  lemma SortedBounds(s: seq<Record>)
    requires s != [] && SortedByDay(s)
    ensures MinDay(s) == s[0].dteday
    ensures MaxDay(s) == s[|s| - 1].dteday
  {
    var lo := MinDay(s);
    var hi := MaxDay(s);
    var x :| x in s && x.dteday == lo;
    var y :| y in s && y.dteday == hi;
    var i :| 0 <= i < |s| && s[i] == x;
    var j :| 0 <= j < |s| && s[j] == y;
    assert s[0] in s && s[|s| - 1] in s;
  }

  /**
   * The load step: sort the raw log by day and take the bounds that seed the
   * date-range input. An empty log has no bounds (pandas gives NaT).
   */
  method LoadLog(raw: seq<Record>) returns (all: seq<Record>, bounds: Option<(Day, Day)>)
    ensures SortedByDay(all)
    ensures multiset(all) == multiset(raw)
    ensures bounds.None? <==> raw == []
    ensures bounds.Some? ==> IsLeastDay(raw, bounds.value.0) && IsGreatestDay(raw, bounds.value.1)
  {
    all := SortByDay(raw);
    assert forall x :: x in all <==> x in raw by {
      forall x ensures x in all <==> x in raw {
        assert x in all <==> x in multiset(all);
        assert x in raw <==> x in multiset(raw);
      }
    }
    if |all| == 0 {
      assert |raw| == |multiset(raw)| == |multiset(all)| == 0;
      bounds := None;
    } else {
      SortedBounds(all);
      bounds := Some((all[0].dteday, all[|all| - 1].dteday));
    }
  }

  // ---------------------------------------------------------------------
  // Inclusive range filter: start_date <= dteday <= end_date
  // ---------------------------------------------------------------------

  predicate InRange(x: Record, start: Day, end: Day)
  {
    start <= x.dteday <= end
  }

  /** The records of `log` whose day lies in [start, end], in log order. */
  function FilterRange(log: seq<Record>, start: Day, end: Day): (r: seq<Record>)
    ensures |r| <= |log|
    ensures forall x :: x in r <==> x in log && InRange(x, start, end)
  {
    if log == [] then []
    else if InRange(log[0], start, end) then [log[0]] + FilterRange(log[1..], start, end)
      else FilterRange(log[1..], start, end)
  }

  /** The filter keeps every record in range as often as it occurs, and no other. */
  lemma {:induction false} FilterRangeCounts(log: seq<Record>, start: Day, end: Day)
    ensures forall x ::
      multiset(FilterRange(log, start, end))[x] == (if InRange(x, start, end) then multiset(log)[x] else 0)
  {
    if log != [] {
      assert log == [log[0]] + log[1..];
      FilterRangeCounts(log[1..], start, end);
    }
  }

  /** Filtering can only lower the sum of `cnt`. */
  lemma {:induction false} FilterRangeSumBound(log: seq<Record>, start: Day, end: Day)
    ensures SumCnt(FilterRange(log, start, end)) <= SumCnt(log)
  {
    if log != [] {
      FilterRangeSumBound(log[1..], start, end);
    }
  }

  /** Logs with the same records, in whatever order, have filters with the same `cnt` sum. */
  lemma FilterRangePermutation(a: seq<Record>, b: seq<Record>, start: Day, end: Day)
    requires multiset(a) == multiset(b)
    ensures SumCnt(FilterRange(a, start, end)) == SumCnt(FilterRange(b, start, end))
  {
    FilterRangeCounts(a, start, end);
    FilterRangeCounts(b, start, end);
    assert multiset(FilterRange(a, start, end)) == multiset(FilterRange(b, start, end));
    SumCntPermutation(FilterRange(a, start, end), FilterRange(b, start, end));
  }

  /** The records of `log` on day `d`. */
  function OnDay(log: seq<Record>, d: Day): seq<Record>
  {
    FilterRange(log, d, d)
  }

  /** Filtering distributes over concatenation, so relative order is kept. */
  lemma {:induction false} FilterRangeAppend(a: seq<Record>, b: seq<Record>, start: Day, end: Day)
    ensures FilterRange(a + b, start, end) == FilterRange(a, start, end) + FilterRange(b, start, end)
  {
    if a == [] {
      assert a + b == b;
    } else {
      assert (a + b)[0] == a[0];
      assert (a + b)[1..] == a[1..] + b;
      FilterRangeAppend(a[1..], b, start, end);
    }
  }

  /** A filtered sorted log is still sorted. */
  lemma {:induction false} FilterRangeSorted(log: seq<Record>, start: Day, end: Day)
    requires SortedByDay(log)
    ensures SortedByDay(FilterRange(log, start, end))
  {
    if log != [] {
      FilterRangeSorted(log[1..], start, end);
      var rest := FilterRange(log[1..], start, end);
      if InRange(log[0], start, end) {
        if rest != [] {
          assert rest[0] in log[1..];
          var k :| 0 <= k < |log[1..]| && log[1..][k] == rest[0];
          assert log[k + 1] == rest[0];
        }
        SortedCons(log[0], rest);
      }
    }
  }

  /** Narrowing the range is the same as filtering the wider result again. */
  lemma {:induction false} FilterRangeNarrow(log: seq<Record>, s1: Day, e1: Day, s2: Day, e2: Day)
    requires s1 <= s2 && e2 <= e1
    ensures FilterRange(FilterRange(log, s1, e1), s2, e2) == FilterRange(log, s2, e2)
  {
    if log != [] {
      FilterRangeNarrow(log[1..], s1, e1, s2, e2);
      if InRange(log[0], s1, e1) {
        var w := [log[0]] + FilterRange(log[1..], s1, e1);
        assert w[0] == log[0] && w[1..] == FilterRange(log[1..], s1, e1);
      }
    }
  }

  /** A range that holds no record of the log selects nothing. */
  lemma {:induction false} FilterRangeNone(log: seq<Record>, start: Day, end: Day)
    requires forall x :: x in log ==> !InRange(x, start, end)
    ensures FilterRange(log, start, end) == []
  {
    if log != [] {
      assert log[0] in log;
      assert forall x :: x in log[1..] ==> x in log;
      FilterRangeNone(log[1..], start, end);
    }
  }

  /** A range with start after end selects nothing (the source raises no error). */
  lemma EmptyWhenReversed(log: seq<Record>, start: Day, end: Day)
    requires end < start
    ensures FilterRange(log, start, end) == []
  {
  }

  /** A range that covers every day of the log keeps the whole log. */
  lemma {:induction false} FilterRangeAll(log: seq<Record>, start: Day, end: Day)
    requires forall x :: x in log ==> InRange(x, start, end)
    ensures FilterRange(log, start, end) == log
  {
    if log != [] {
      assert log[0] in log;
      assert forall x :: x in log[1..] ==> x in log;
      FilterRangeAll(log[1..], start, end);
    }
  }

  /** Splitting [lo, hi] into day `lo` and [lo + 1, hi] splits the sum of `cnt`. */
  lemma {:induction false} SumCntSplitFirstDay(log: seq<Record>, lo: Day, hi: Day)
    requires lo <= hi
    ensures SumCnt(FilterRange(log, lo, hi)) == SumCnt(OnDay(log, lo)) + SumCnt(FilterRange(log, lo + 1, hi))
  {
    if log != [] {
      SumCntSplitFirstDay(log[1..], lo, hi);
    }
  }
}
