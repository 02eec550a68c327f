/**
 * The temperature and feels-like samples (create_temp_cnt_df and
 * create_atemp_cnt_df): project the log onto (reading, cnt, dteday), keep the
 * rows of 2011-01-01 and take the first 30 of them.
 */
module Samples {
  import opened UsageLog

  /** At most this many rows are drawn (`iloc[:30]`). */
  const SampleLimit: nat := 30

  /** Which temperature column a sample carries. */
  datatype Reading = Temp | Atemp

  /** One sample row: the temperature reading, `cnt` and `dteday`. */
  datatype SampleRow = SampleRow(reading: Temperature, cnt: nat, dteday: Day)

  function SampleOf(x: Record, which: Reading): SampleRow
  {
    SampleRow(if which == Temp then x.temp else x.atemp, x.cnt, x.dteday)
  }

  /** The column projection `all_df[[reading, 'cnt', 'dteday']]`. */
  function Project(s: seq<Record>, which: Reading): (r: seq<SampleRow>)
    ensures |r| == |s|
    ensures forall k :: 0 <= k < |s| ==> r[k] == SampleOf(s[k], which)
  {
    if s == [] then [] else [SampleOf(s[0], which)] + Project(s[1..], which)
  }

  /** The projected rows whose day is `d`, in order. */
  function RowsOnDay(rows: seq<SampleRow>, d: Day): seq<SampleRow>
  {
    if rows == [] then []
    else if rows[0].dteday == d then [rows[0]] + RowsOnDay(rows[1..], d)
    else RowsOnDay(rows[1..], d)
  }

  /** The first `n` elements, or all of them when there are fewer (`iloc[:n]`). */
  function Head<T>(s: seq<T>, n: nat): (r: seq<T>)
    ensures |r| == if |s| <= n then |s| else n
    ensures forall k :: 0 <= k < |r| ==> r[k] == s[k]
  {
    if |s| <= n then s else s[..n]
  }

  /** Projecting and then selecting a day is selecting the day and then projecting. */
  lemma {:induction false} ProjectOnDay(s: seq<Record>, which: Reading, d: Day)
    ensures RowsOnDay(Project(s, which), d) == Project(OnDay(s, d), which)
  {
    if s != [] {
      assert Project(s, which)[1..] == Project(s[1..], which);
      ProjectOnDay(s[1..], which, d);
    }
  }

  /**
   * The sample drawn from the full log: the `df` argument is not used, since
   * the source reads the global table instead of its parameter.
   */
  function CreateSample(df: seq<Record>, all: seq<Record>, which: Reading): (r: seq<SampleRow>)
    ensures |r| == if |OnDay(all, ReferenceDay)| <= SampleLimit then |OnDay(all, ReferenceDay)| else SampleLimit
    ensures forall k :: 0 <= k < |r| ==> r[k] == SampleOf(OnDay(all, ReferenceDay)[k], which)
    ensures forall k :: 0 <= k < |r| ==> r[k].dteday == ReferenceDay
  {
    ProjectOnDay(all, which, ReferenceDay);
    var on := OnDay(all, ReferenceDay);
    assert forall k :: 0 <= k < |on| ==> on[k] in on;
    Head(RowsOnDay(Project(all, which), ReferenceDay), SampleLimit)
  }

  /** create_temp_cnt_df: the `temp` readings of the first 30 records of 2011-01-01. */
  function CreateTempCnt(df: seq<Record>, all: seq<Record>): (r: seq<SampleRow>)
    ensures |r| <= SampleLimit && |r| <= |OnDay(all, ReferenceDay)|
    ensures forall k :: 0 <= k < |r| ==>
      r[k].reading == OnDay(all, ReferenceDay)[k].temp && r[k].cnt == OnDay(all, ReferenceDay)[k].cnt
  {
    CreateSample(df, all, Temp)
  }

  /** create_atemp_cnt_df: the `atemp` readings of the first 30 records of 2011-01-01. */
  function CreateAtempCnt(df: seq<Record>, all: seq<Record>): (r: seq<SampleRow>)
    ensures |r| <= SampleLimit && |r| <= |OnDay(all, ReferenceDay)|
    ensures forall k :: 0 <= k < |r| ==>
      r[k].reading == OnDay(all, ReferenceDay)[k].atemp && r[k].cnt == OnDay(all, ReferenceDay)[k].cnt
  {
    CreateSample(df, all, Atemp)
  }

  /** Every sampled row comes from a record of the full log on the reference day. */
  lemma SampleFromReferenceDay(df: seq<Record>, all: seq<Record>, which: Reading, k: nat)
    requires k < |CreateSample(df, all, which)|
    ensures exists x :: x in all && x.dteday == ReferenceDay && CreateSample(df, all, which)[k] == SampleOf(x, which)
  {
    var x := OnDay(all, ReferenceDay)[k];
    assert x in OnDay(all, ReferenceDay);
  }

  /** With at least 30 records on the reference day, exactly the first 30 are drawn. */
  lemma SampleIsFull(df: seq<Record>, all: seq<Record>, which: Reading)
    requires |OnDay(all, ReferenceDay)| >= SampleLimit
    ensures |CreateSample(df, all, which)| == SampleLimit
  {
  }

  /** The samples do not depend on the frame they are given. */
  lemma SampleIgnoresDf(df1: seq<Record>, df2: seq<Record>, all: seq<Record>, which: Reading)
    ensures CreateSample(df1, all, which) == CreateSample(df2, all, which)
  {
  }
}
