/**
 * The daily totals table (create_daily_rent_df) and the headline rental count.
 * Resampling by calendar day emits one row for every day from the earliest to
 * the latest day of its input, so a day without records gets a row of zeros.
 */
module DailyRent {
  import opened UsageLog

  /** One row of the daily table: `order_count` and `total_rent` after the renames. */
  datatype DailyRow = DailyRow(day: Day, orderCount: nat, totalRent: nat)

  /** The distinct record ids of a log. */
  function Instants(s: seq<Record>): set<int>
  {
    if s == [] then {} else {s[0].instant} + Instants(s[1..])
  }

  /** An id is among the distinct ids exactly when some record carries it. */
  lemma {:induction false} InstantsMember(s: seq<Record>, id: int)
    ensures id in Instants(s) <==> exists i :: 0 <= i < |s| && s[i].instant == id
  {
    if s != [] {
      InstantsMember(s[1..], id);
      if id != s[0].instant && id in Instants(s[1..]) {
        var i :| 0 <= i < |s[1..]| && s[1..][i].instant == id;
        assert s[i + 1].instant == id;
      }
      if exists i :: 0 <= i < |s| && s[i].instant == id {
        var i :| 0 <= i < |s| && s[i].instant == id;
        if i > 0 { assert s[1..][i - 1].instant == id; }
      }
    }
  }

  /** The row for day `d`: distinct ids ("nunique") and the sum of `cnt` on that day. */
  function RowFor(df: seq<Record>, d: Day): DailyRow
  {
    DailyRow(d, |Instants(OnDay(df, d))|, SumCnt(OnDay(df, d)))
  }

  /** Rows for the `n` consecutive days starting at `lo`. */
  function RowsFrom(df: seq<Record>, lo: Day, n: nat): (rows: seq<DailyRow>)
    ensures |rows| == n
    ensures forall k :: 0 <= k < n ==> rows[k] == RowFor(df, lo + k)
    decreases n
  {
    if n == 0 then [] else [RowFor(df, lo)] + RowsFrom(df, lo + 1, n - 1)
  }

  lemma RowsFromAt(df: seq<Record>, lo: Day, n: nat, j: nat)
    requires j < n
    ensures |RowsFrom(df, lo, n)| == n
    ensures RowsFrom(df, lo, n)[j] == RowFor(df, lo + j)
  {
  }

  /** The daily table of a log: one row per calendar day between its first and last day. */
  function DailyRentTable(df: seq<Record>): (rows: seq<DailyRow>)
    ensures rows == [] <==> df == []
  {
    if df == [] then [] else RowsFrom(df, MinDay(df), MaxDay(df) - MinDay(df) + 1)
  }

  /** The sum of `total_rent` over the daily table (the "Timeline Rental Count"). */
  function TotalRent(rows: seq<DailyRow>): (n: nat)
    ensures forall k :: 0 <= k < |rows| ==> rows[k].totalRent <= n
  {
    if rows == [] then 0
    else
      var rest := TotalRent(rows[1..]);
      assert forall k :: 1 <= k < |rows| ==> rows[k] == rows[1..][k - 1];
      rows[0].totalRent + rest
  }

  /** An empty log has an empty daily table. */
  lemma DailyRentEmpty(df: seq<Record>)
    requires df == []
    ensures DailyRentTable(df) == []
  {
  }

  /**
   * The days of the daily table run without gaps, strictly ascending, from the
   * earliest to the latest day of the log.
   */
  lemma DailyRentDays(df: seq<Record>)
    requires df != []
    ensures |DailyRentTable(df)| == MaxDay(df) - MinDay(df) + 1
    ensures DailyRentTable(df)[0].day == MinDay(df)
    ensures DailyRentTable(df)[|DailyRentTable(df)| - 1].day == MaxDay(df)
    ensures forall k :: 0 <= k < |DailyRentTable(df)| ==> DailyRentTable(df)[k].day == MinDay(df) + k
    ensures forall i, j :: 0 <= i < j < |DailyRentTable(df)| ==> DailyRentTable(df)[i].day < DailyRentTable(df)[j].day
  {
  }

  /** Every day on which the log has a record has its row. */
  lemma DailyRentCoversLog(df: seq<Record>, x: Record)
    requires x in df
    ensures exists k :: 0 <= k < |DailyRentTable(df)| && DailyRentTable(df)[k].day == x.dteday
  {
    var k := x.dteday - MinDay(df);
    assert DailyRentTable(df)[k].day == x.dteday;
  }

  /** Each row of the daily table is the row of its own day. */
  lemma DailyRentRowIs(df: seq<Record>, k: nat)
    requires k < |DailyRentTable(df)|
    ensures DailyRentTable(df)[k] == RowFor(df, DailyRentTable(df)[k].day)
  {
    assert df != [];
    DailyRentHasDay(df, MinDay(df) + k);
  }

  /** Every day of the log's span has its row, at its offset from the earliest day. */
  lemma DailyRentHasDay(df: seq<Record>, d: Day)
    requires df != [] && MinDay(df) <= d <= MaxDay(df)
    ensures |DailyRentTable(df)| == MaxDay(df) - MinDay(df) + 1
    ensures DailyRentTable(df)[d - MinDay(df)] == RowFor(df, d)
  {
    var lo, hi := MinDay(df), MaxDay(df);
    assert DailyRentTable(df) == RowsFrom(df, lo, hi - lo + 1);
    RowsFromAt(df, lo, hi - lo + 1, d - lo);
  }

  /** Each row carries the distinct ids and the `cnt` sum of its own day. */
  lemma DailyRentRows(df: seq<Record>, k: nat)
    requires k < |DailyRentTable(df)|
    ensures DailyRentTable(df)[k].orderCount == |Instants(OnDay(df, DailyRentTable(df)[k].day))|
    ensures DailyRentTable(df)[k].totalRent == SumCnt(OnDay(df, DailyRentTable(df)[k].day))
  {
    DailyRentRowIs(df, k);
  }

  /** A day without any record has zero counts. */
  lemma EmptyDayIsZero(df: seq<Record>, d: Day)
    requires forall x :: x in df ==> x.dteday != d
    ensures RowFor(df, d).orderCount == 0 && RowFor(df, d).totalRent == 0
  {
    FilterRangeNone(df, d, d);
  }

  /** A day inside the table's span on which no record falls gets zero counts. */
  lemma GapDayIsZero(df: seq<Record>, k: nat)
    requires k < |DailyRentTable(df)|
    requires forall x :: x in df ==> x.dteday != DailyRentTable(df)[k].day
    ensures DailyRentTable(df)[k].orderCount == 0
    ensures DailyRentTable(df)[k].totalRent == 0
  {
    DailyRentRowIs(df, k);
    EmptyDayIsZero(df, DailyRentTable(df)[k].day);
  }

  /** `order_count` counts distinct ids, so it never exceeds the day's row count. */
  lemma {:induction false} InstantsBound(s: seq<Record>)
    ensures |Instants(s)| <= |s|
  {
    if s != [] {
      InstantsBound(s[1..]);
    }
  }

  /** No two records of `s` share an id. */
  ghost predicate UniqueInstants(s: seq<Record>)
  {
    forall i, j :: 0 <= i < j < |s| ==> s[i].instant != s[j].instant
  }

  /** When ids are unique, the distinct-id count equals the row count. */
  lemma {:induction false} InstantsUnique(s: seq<Record>)
    requires UniqueInstants(s)
    ensures |Instants(s)| == |s|
  {
    if s != [] {
      assert UniqueInstants(s[1..]) by {
        forall i, j | 0 <= i < j < |s[1..]| ensures s[1..][i].instant != s[1..][j].instant {
          assert s[1..][i] == s[i + 1] && s[1..][j] == s[j + 1];
        }
      }
      InstantsUnique(s[1..]);
      InstantsMember(s[1..], s[0].instant);
    }
  }

  /** Order-preserving selection keeps ids unique. */
  lemma {:induction false} FilterRangeUnique(s: seq<Record>, start: Day, end: Day)
    requires UniqueInstants(s)
    ensures UniqueInstants(FilterRange(s, start, end))
  {
    if s != [] {
      assert UniqueInstants(s[1..]) by {
        forall i, j | 0 <= i < j < |s[1..]| ensures s[1..][i].instant != s[1..][j].instant {
          assert s[1..][i] == s[i + 1] && s[1..][j] == s[j + 1];
        }
      }
      FilterRangeUnique(s[1..], start, end);
      var rest := FilterRange(s[1..], start, end);
      if InRange(s[0], start, end) {
        var r := [s[0]] + rest;
        forall i, j | 0 <= i < j < |r| ensures r[i].instant != r[j].instant {
          if i == 0 {
            assert r[j] in s[1..];
            var k :| 0 <= k < |s[1..]| && s[1..][k] == r[j];
            assert s[k + 1] == r[j];
          } else {
            assert r[i] == rest[i - 1] && r[j] == rest[j - 1];
          }
        }
      }
    }
  }

  /** The order count of day `d`: at most its row count, equal to it when ids are unique. */
  lemma OrderCountOfDay(df: seq<Record>, d: Day)
    ensures RowFor(df, d).orderCount <= |OnDay(df, d)|
    ensures UniqueInstants(df) ==> RowFor(df, d).orderCount == |OnDay(df, d)|
  {
    InstantsBound(OnDay(df, d));
    if UniqueInstants(df) {
      FilterRangeUnique(df, d, d);
      InstantsUnique(OnDay(df, d));
    }
  }

  /** `order_count` in the daily table counts distinct ids, not rows. */
  lemma OrderCountIsDistinct(df: seq<Record>, k: nat)
    requires k < |DailyRentTable(df)|
    ensures DailyRentTable(df)[k].orderCount <= |OnDay(df, DailyRentTable(df)[k].day)|
    ensures UniqueInstants(df) ==>
      DailyRentTable(df)[k].orderCount == |OnDay(df, DailyRentTable(df)[k].day)|
  {
    DailyRentRowIs(df, k);
    OrderCountOfDay(df, DailyRentTable(df)[k].day);
  }

  lemma TotalRentCons(row: DailyRow, rest: seq<DailyRow>)
    ensures TotalRent([row] + rest) == row.totalRent + TotalRent(rest)
  {
    assert ([row] + rest)[1..] == rest;
  }

  lemma {:induction false} TotalRentRowsFrom(df: seq<Record>, lo: Day, n: nat)
    ensures TotalRent(RowsFrom(df, lo, n)) == SumCnt(FilterRange(df, lo, lo + n - 1))
    decreases n
  {
    if n == 0 {
      EmptyWhenReversed(df, lo, lo - 1);
    } else {
      var rest := RowsFrom(df, lo + 1, n - 1);
      assert RowsFrom(df, lo, n) == [RowFor(df, lo)] + rest;
      TotalRentCons(RowFor(df, lo), rest);
      TotalRentRowsFrom(df, lo + 1, n - 1);
      SumCntSplitFirstDay(df, lo, lo + n - 1);
    }
  }

  /** Conservation: the daily totals add up to the `cnt` sum of the whole input. */
  lemma DailyRentConservesCnt(df: seq<Record>)
    ensures TotalRent(DailyRentTable(df)) == SumCnt(df)
  {
    if df != [] {
      var lo, hi := MinDay(df), MaxDay(df);
      assert IsLeastDay(df, lo) && IsGreatestDay(df, hi);
      assert DailyRentTable(df) == RowsFrom(df, lo, hi - lo + 1);
      RowsCoveringLog(df, lo, hi);
    }
  }

  /** Rows covering every day of a log between them add up to its `cnt` sum. */
  lemma RowsCoveringLog(df: seq<Record>, lo: Day, hi: Day)
    requires lo <= hi
    requires forall x :: x in df ==> InRange(x, lo, hi)
    ensures TotalRent(RowsFrom(df, lo, hi - lo + 1)) == SumCnt(df)
  {
    FilterRangeAll(df, lo, hi);
    TotalRentRowsFrom(df, lo, hi - lo + 1);
  }
}
