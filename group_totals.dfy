/**
 * The group-by-sum tables of the dashboard: `df.groupby(code)['cnt'].sum()`
 * for the weather, working-day, holiday and season codes. pandas sorts the
 * groups by key, so a table has one row per code present, ascending by code.
 */
module GroupTotals {
  import opened UsageLog

  /** The categorical columns the dashboard groups by. */
  datatype Field = Weather | WorkingDay | Holiday | Season

  function CodeOf(x: Record, f: Field): int
  {
    match f
    case Weather => x.weathersit
    case WorkingDay => x.workingday
    case Holiday => x.holiday
    case Season => x.season
  }

  /** One row of a group table: the code and the sum of `cnt` for it (`total_cnt`). */
  datatype GroupRow = GroupRow(code: int, total: nat)

  ghost predicate StrictlyAscending(t: seq<GroupRow>)
  {
    forall i, j :: 0 <= i < j < |t| ==> t[i].code < t[j].code
  }

  /** The codes that have a row. */
  function Codes(t: seq<GroupRow>): set<int>
  {
    if t == [] then {} else {t[0].code} + Codes(t[1..])
  }

  /** The total a table records for `c` (0 when `c` has no row). */
  function TotalFor(t: seq<GroupRow>, c: int): nat
  {
    if t == [] then 0 else (if t[0].code == c then t[0].total else 0) + TotalFor(t[1..], c)
  }

  /** The sum of all totals of a table. */
  function SumTotals(t: seq<GroupRow>): nat
  {
    if t == [] then 0 else t[0].total + SumTotals(t[1..])
  }

  /** The records of `df` whose code for `f` is `c`, in log order. */
  function WithCode(df: seq<Record>, f: Field, c: int): seq<Record>
  {
    if df == [] then []
    else if CodeOf(df[0], f) == c then [df[0]] + WithCode(df[1..], f, c)
    else WithCode(df[1..], f, c)
  }

  /** The codes of `f` present in `df`. */
  function CodesIn(df: seq<Record>, f: Field): set<int>
  {
    if df == [] then {} else {CodeOf(df[0], f)} + CodesIn(df[1..], f)
  }

  /** In a strictly ascending table every row's code is above a code below the head. */
  lemma {:induction false} BelowHeadNotPresent(t: seq<GroupRow>, c: int)
    requires StrictlyAscending(t)
    requires t != [] && c < t[0].code
    ensures c !in Codes(t)
    ensures TotalFor(t, c) == 0
  {
    if |t| > 1 {
      assert t[1..][0] == t[1];
      BelowHeadNotPresent(t[1..], c);
    }
  }

  /** Adds `n` rentals under code `c`, keeping the table ascending by code. */
  function AddCount(t: seq<GroupRow>, c: int, n: nat): (r: seq<GroupRow>)
    requires StrictlyAscending(t)
    ensures StrictlyAscending(r)
    ensures r != [] && (r[0].code == c || (t != [] && r[0].code == t[0].code))
    ensures Codes(r) == Codes(t) + {c}
    ensures SumTotals(r) == SumTotals(t) + n
  {
    if t == [] then
      [GroupRow(c, n)]
    else if c < t[0].code then
      var r := [GroupRow(c, n)] + t;
      assert r[1..] == t;
      r
    else if c == t[0].code then
      var r := [GroupRow(c, t[0].total + n)] + t[1..];
      assert r[1..] == t[1..];
      r
    else
      var rest := AddCount(t[1..], c, n);
      var r := [t[0]] + rest;
      assert r[1..] == rest;
      assert t[1..] != [] ==> t[1..][0] == t[1];
      r
  }

  /** Adding under `c` raises `c`'s total by `n` and leaves every other code's. */
  lemma {:induction false} AddCountTotal(t: seq<GroupRow>, c: int, n: nat, c': int)
    requires StrictlyAscending(t)
    ensures TotalFor(AddCount(t, c, n), c') == TotalFor(t, c') + (if c' == c then n else 0)
  {
    if t != [] && c > t[0].code {
      AddCountTotal(t[1..], c, n, c');
      assert AddCount(t, c, n)[1..] == AddCount(t[1..], c, n);
    } else if t != [] && c < t[0].code {
      assert AddCount(t, c, n)[1..] == t;
    } else if t != [] {
      assert AddCount(t, c, n)[1..] == t[1..];
    }
  }

  /** The group-by-sum table of `df` on column `f`. */
  function GroupSum(df: seq<Record>, f: Field): (t: seq<GroupRow>)
    ensures StrictlyAscending(t)
  {
    if df == [] then [] else AddCount(GroupSum(df[1..], f), CodeOf(df[0], f), df[0].cnt)
  }

  /** There is a row exactly for each code present in the log. */
  lemma {:induction false} GroupSumCodes(df: seq<Record>, f: Field)
    ensures Codes(GroupSum(df, f)) == CodesIn(df, f)
  {
    if df != [] {
      GroupSumCodes(df[1..], f);
    }
  }

  /** Each code's total is the sum of `cnt` over the records with that code. */
  lemma {:induction false} GroupSumTotal(df: seq<Record>, f: Field, c: int)
    ensures TotalFor(GroupSum(df, f), c) == SumCnt(WithCode(df, f, c))
  {
    if df != [] {
      GroupSumTotal(df[1..], f, c);
      AddCountTotal(GroupSum(df[1..], f), CodeOf(df[0], f), df[0].cnt, c);
    }
  }

  /** Conservation: the totals of a group table add up to the log's `cnt` sum. */
  lemma {:induction false} GroupSumConservesCnt(df: seq<Record>, f: Field)
    ensures SumTotals(GroupSum(df, f)) == SumCnt(df)
  {
    if df != [] {
      GroupSumConservesCnt(df[1..], f);
    }
  }

  /** In a strictly ascending table a row's total is the table's total for its code. */
  lemma {:induction false} RowTotalIsTotalFor(t: seq<GroupRow>, k: nat)
    requires StrictlyAscending(t)
    requires k < |t|
    ensures TotalFor(t, t[k].code) == t[k].total
  {
    if k == 0 {
      if |t| > 1 {
        assert t[1..][0] == t[1];
        BelowHeadNotPresent(t[1..], t[0].code);
      }
    } else {
      assert t[1..][k - 1] == t[k];
      RowTotalIsTotalFor(t[1..], k - 1);
    }
  }

  /** Every row of a group table holds the `cnt` sum of exactly the records with its code. */
  lemma GroupSumRow(df: seq<Record>, f: Field, k: nat)
    requires k < |GroupSum(df, f)|
    ensures GroupSum(df, f)[k].total == SumCnt(WithCode(df, f, GroupSum(df, f)[k].code))
  {
    RowTotalIsTotalFor(GroupSum(df, f), k);
    GroupSumTotal(df, f, GroupSum(df, f)[k].code);
  }

  /** A code is present in the log exactly when some record carries it. */
  lemma {:induction false} CodesInMember(df: seq<Record>, f: Field, c: int)
    ensures c in CodesIn(df, f) <==> exists x :: x in df && CodeOf(x, f) == c
  {
    if df != [] {
      CodesInMember(df[1..], f, c);
      assert forall x :: x in df <==> x == df[0] || x in df[1..];
    }
  }

  /** Selecting a code and selecting a date range commute. */
  lemma {:induction false} WithCodeFilterRange(s: seq<Record>, f: Field, c: int, start: Day, end: Day)
    ensures WithCode(FilterRange(s, start, end), f, c) == FilterRange(WithCode(s, f, c), start, end)
  {
    if s != [] {
      WithCodeFilterRange(s[1..], f, c, start, end);
    }
  }

  /** A date-range filter cannot add codes. */
  lemma {:induction false} CodesInFilterRange(s: seq<Record>, f: Field, start: Day, end: Day)
    ensures CodesIn(FilterRange(s, start, end), f) <= CodesIn(s, f)
  {
    if s != [] {
      CodesInFilterRange(s[1..], f, start, end);
    }
  }

  /**
   * Filtering a log by date first can only remove rows from its group table
   * and lower their totals.
   */
  lemma GroupSumFilterRange(s: seq<Record>, f: Field, start: Day, end: Day)
    ensures Codes(GroupSum(FilterRange(s, start, end), f)) <= Codes(GroupSum(s, f))
    ensures forall c :: TotalFor(GroupSum(FilterRange(s, start, end), f), c) <= TotalFor(GroupSum(s, f), c)
  {
    GroupSumCodes(s, f);
    GroupSumCodes(FilterRange(s, start, end), f);
    CodesInFilterRange(s, f, start, end);
    forall c ensures TotalFor(GroupSum(FilterRange(s, start, end), f), c) <= TotalFor(GroupSum(s, f), c) {
      GroupSumTotal(s, f, c);
      GroupSumTotal(FilterRange(s, start, end), f, c);
      WithCodeFilterRange(s, f, c, start, end);
      FilterRangeSumBound(WithCode(s, f, c), start, end);
    }
  }
}
