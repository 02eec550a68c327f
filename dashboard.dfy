/**
 * One render of the dashboard: the range filter over the sorted log and the
 * seven tables plus the headline count drawn from it. As in the source, only
 * the daily and weather tables are computed from the filtered frame; the
 * working-day, holiday, season and temperature tables read the full log.
 */
module Dashboard {
  import opened Optional
  import opened UsageLog
  import opened DailyRent
  import opened GroupTotals
  import opened Samples
  import opened Labels

  /** What one render shows, after the label columns are written. */
  datatype View = View(
    totalRent: nat,
    daily: seq<DailyRow>,
    weather: seq<LabeledRow>,
    weekdayWeekend: seq<LabeledRow>,
    holiday: seq<LabeledRow>,
    tempSample: seq<SampleRow>,
    atempSample: seq<SampleRow>,
    season: seq<SeasonRow>)

  /** `main_df`: the records of the log between both dates, both ends included. */
  function MainDf(all: seq<Record>, start: Day, end: Day): (main: seq<Record>)
    ensures forall x :: x in main <==> x in all && InRange(x, start, end)
    ensures SortedByDay(all) ==> SortedByDay(main)
  {
    assert SortedByDay(all) ==> SortedByDay(FilterRange(all, start, end)) by {
      if SortedByDay(all) { FilterRangeSorted(all, start, end); }
    }
    FilterRange(all, start, end)
  }

  /** create_weathersit_cnt_df: grouped from the frame it is given. */
  function CreateWeathersitCnt(df: seq<Record>): (t: seq<GroupRow>)
    ensures StrictlyAscending(t)
    ensures Codes(t) == CodesIn(df, Weather)
    ensures SumTotals(t) == SumCnt(df)
  {
    GroupSumCodes(df, Weather);
    GroupSumConservesCnt(df, Weather);
    GroupSum(df, Weather)
  }

  /** create_weekday_weekend_df, and its recomputation: grouped from the full log. */
  function CreateWeekdayWeekend(df: seq<Record>, all: seq<Record>): (t: seq<GroupRow>)
    ensures StrictlyAscending(t)
    ensures Codes(t) == CodesIn(all, WorkingDay)
    ensures SumTotals(t) == SumCnt(all)
  {
    GroupSumCodes(all, WorkingDay);
    GroupSumConservesCnt(all, WorkingDay);
    GroupSum(all, WorkingDay)
  }

  /** create_holiday_df, and its recomputation: grouped from the full log. */
  function CreateHoliday(df: seq<Record>, all: seq<Record>): (t: seq<GroupRow>)
    ensures StrictlyAscending(t)
    ensures Codes(t) == CodesIn(all, Holiday)
    ensures SumTotals(t) == SumCnt(all)
  {
    GroupSumCodes(all, Holiday);
    GroupSumConservesCnt(all, Holiday);
    GroupSum(all, Holiday)
  }

  /** create_season_df: grouped from the full log. */
  function CreateSeason(df: seq<Record>, all: seq<Record>): (t: seq<GroupRow>)
    ensures StrictlyAscending(t)
    ensures Codes(t) == CodesIn(all, Season)
    ensures SumTotals(t) == SumCnt(all)
  {
    GroupSumCodes(all, Season);
    GroupSumConservesCnt(all, Season);
    GroupSum(all, Season)
  }

  /** One render for the chosen dates over the loaded log. */
  function Render(all: seq<Record>, start: Day, end: Day): (v: View)
    ensures v.totalRent == SumCnt(FilterRange(all, start, end))
  {
    var main := MainDf(all, start, end);
    var daily := DailyRentTable(main);
    DailyRentConservesCnt(main);
    View(
      TotalRent(daily),
      daily,
      Relabel(CreateWeathersitCnt(main), WeatherLabels),
      Relabel(CreateWeekdayWeekend(main, all), WeekLabels),
      Relabel(CreateHoliday(main, all), HolidayLabels),
      CreateTempCnt(main, all),
      CreateAtempCnt(main, all),
      NameSeasons(CreateSeason(main, all)))
  }

  /**
   * The headline count is the `cnt` sum of the records in range, and the
   * weather pie adds up to it; the working-day, holiday and season tables add
   * up to the `cnt` sum of the whole log.
   */
  lemma RenderConservesCnt(all: seq<Record>, start: Day, end: Day)
    ensures Render(all, start, end).totalRent == SumCnt(FilterRange(all, start, end))
    ensures SumLabeled(Render(all, start, end).weather) == SumCnt(FilterRange(all, start, end))
    ensures SumLabeled(Render(all, start, end).weekdayWeekend) == SumCnt(all)
    ensures SumLabeled(Render(all, start, end).holiday) == SumCnt(all)
    ensures SumSeasons(Render(all, start, end).season) == SumCnt(all)
  {
    var main := MainDf(all, start, end);
    DailyRentConservesCnt(main);
    GroupSumConservesCnt(main, Weather);
    RelabelConserves(GroupSum(main, Weather), WeatherLabels);
    GroupSumConservesCnt(all, WorkingDay);
    RelabelConserves(GroupSum(all, WorkingDay), WeekLabels);
    GroupSumConservesCnt(all, Holiday);
    RelabelConserves(GroupSum(all, Holiday), HolidayLabels);
    GroupSumConservesCnt(all, Season);
    NameSeasonsConserves(GroupSum(all, Season));
  }

  /** When no record lies in range the daily and weather tables are empty and the headline is 0. */
  lemma RenderEmptyRange(all: seq<Record>, start: Day, end: Day)
    requires forall x :: x in all ==> !InRange(x, start, end)
    ensures Render(all, start, end).totalRent == 0
    ensures Render(all, start, end).daily == []
    ensures Render(all, start, end).weather == []
  {
  }

  /**
   * The working-day, holiday, season and temperature tables are the same for
   * every choice of dates, because they are computed from the full log.
   */
  lemma RenderRangeIndependent(all: seq<Record>, s1: Day, e1: Day, s2: Day, e2: Day)
    ensures Render(all, s1, e1).weekdayWeekend == Render(all, s2, e2).weekdayWeekend
    ensures Render(all, s1, e1).holiday == Render(all, s2, e2).holiday
    ensures Render(all, s1, e1).season == Render(all, s2, e2).season
    ensures Render(all, s1, e1).tempSample == Render(all, s2, e2).tempSample
    ensures Render(all, s1, e1).atempSample == Render(all, s2, e2).atempSample
  {
  }

  /** Narrowing the dates can only remove weather rows and lower their totals and the headline. */
  lemma NarrowingWeather(all: seq<Record>, s1: Day, e1: Day, s2: Day, e2: Day)
    requires s1 <= s2 && e2 <= e1
    ensures Codes(CreateWeathersitCnt(MainDf(all, s2, e2))) <= Codes(CreateWeathersitCnt(MainDf(all, s1, e1)))
    ensures forall c :: TotalFor(CreateWeathersitCnt(MainDf(all, s2, e2)), c) <= TotalFor(CreateWeathersitCnt(MainDf(all, s1, e1)), c)
    ensures Render(all, s2, e2).totalRent <= Render(all, s1, e1).totalRent
  {
    var wide := MainDf(all, s1, e1);
    FilterRangeNarrow(all, s1, e1, s2, e2);
    GroupSumFilterRange(wide, Weather, s2, e2);
    RenderConservesCnt(all, s1, e1);
    RenderConservesCnt(all, s2, e2);
    FilterRangeSumBound(wide, s2, e2);
  }

  /** The day span of a log lies inside any range that holds all its records. */
  lemma SpanWithin(df: seq<Record>, start: Day, end: Day)
    requires df != []
    requires forall x :: x in df ==> InRange(x, start, end)
    ensures start <= MinDay(df) && MaxDay(df) <= end
  {
    assert IsLeastDay(df, MinDay(df)) && IsGreatestDay(df, MaxDay(df));
    var lo :| lo in df && lo.dteday == MinDay(df);
    var hi :| hi in df && hi.dteday == MaxDay(df);
  }

  /** The day span of a part of a log lies inside the span of the log. */
  lemma SpanOfPart(part: seq<Record>, whole: seq<Record>)
    requires part != []
    requires forall x :: x in part ==> x in whole
    ensures whole != [] && MinDay(whole) <= MinDay(part) && MaxDay(part) <= MaxDay(whole)
  {
    assert IsLeastDay(part, MinDay(part)) && IsGreatestDay(part, MaxDay(part));
    var lo :| lo in part && lo.dteday == MinDay(part);
    var hi :| hi in part && hi.dteday == MaxDay(part);
    assert whole != [] by { assert lo in whole; }
    assert IsLeastDay(whole, MinDay(whole)) && IsGreatestDay(whole, MaxDay(whole));
  }

  /** Every day of a log's span has its row in the daily table. */
  lemma RowInTable(df: seq<Record>, d: Day)
    requires df != [] && MinDay(df) <= d <= MaxDay(df)
    ensures RowFor(df, d) in DailyRentTable(df)
  {
    DailyRentHasDay(df, d);
  }

  /** Narrowing the dates can only remove daily rows: every remaining row is a row of the wider table. */
  lemma NarrowingDaily(all: seq<Record>, s1: Day, e1: Day, s2: Day, e2: Day, k: nat)
    requires s1 <= s2 && e2 <= e1
    requires k < |Render(all, s2, e2).daily|
    ensures Render(all, s2, e2).daily[k] in Render(all, s1, e1).daily
  {
    var wide := MainDf(all, s1, e1);
    var narrow := MainDf(all, s2, e2);
    FilterRangeNarrow(all, s1, e1, s2, e2);
    assert narrow == FilterRange(wide, s2, e2);
    DailyRentDays(narrow);
    DailyRentRowIs(narrow, k);
    var d := DailyRentTable(narrow)[k].day;
    assert d == MinDay(narrow) + k;
    SpanWithin(narrow, s2, e2);
    FilterRangeNarrow(wide, s2, e2, d, d);
    assert RowFor(narrow, d) == RowFor(wide, d);
    SpanOfPart(narrow, wide);
    RowInTable(wide, d);
  }

  /** The weather table of the three-record example. */
  lemma ScenarioWeather(a: Record, b: Record, c: Record)
    requires a.weathersit == 1 && b.weathersit == 1 && c.weathersit == 2
    requires a.cnt == 10 && b.cnt == 20 && c.cnt == 5
    ensures Relabel(GroupSum([a, b, c], Weather), WeatherLabels) ==
      [LabeledRow(Some("clear"), 30), LabeledRow(Some("cloudy"), 5)]
  {
    var log := [a, b, c];
    assert log[1..] == [b, c] && log[1..][1..] == [c];
    assert GroupSum([c], Weather) == [GroupRow(2, 5)];
    assert GroupSum([b, c], Weather) == [GroupRow(1, 20), GroupRow(2, 5)];
    var t := GroupSum(log, Weather);
    assert t == [GroupRow(1, 30), GroupRow(2, 5)];
    assert t[1..] == [GroupRow(2, 5)];
  }

  /** The distinct ids and the `cnt` sum of the three-record example. */
  lemma ScenarioDayTotals(a: Record, b: Record, c: Record)
    requires a.cnt == 10 && b.cnt == 20 && c.cnt == 5
    requires a.instant != b.instant && a.instant != c.instant && b.instant != c.instant
    ensures |Instants([a, b, c])| == 3 && SumCnt([a, b, c]) == 35
  {
    var log := [a, b, c];
    assert log[1..] == [b, c] && log[1..][1..] == [c];
    assert Instants([c]) == {c.instant};
    assert Instants([b, c]) == {b.instant, c.instant};
    assert Instants(log) == {a.instant, b.instant, c.instant};
    assert SumCnt([c]) == 5;
    assert SumCnt([b, c]) == 25;
  }

  /** The daily table of the three-record example. */
  lemma ScenarioDaily(a: Record, b: Record, c: Record, d: Day)
    requires a.dteday == d && b.dteday == d && c.dteday == d
    requires a.cnt == 10 && b.cnt == 20 && c.cnt == 5
    requires a.instant != b.instant && a.instant != c.instant && b.instant != c.instant
    ensures DailyRentTable([a, b, c]) == [DailyRow(d, 3, 35)]
  {
    var log := [a, b, c];
    FilterRangeAll(log, d, d);
    ScenarioDayTotals(a, b, c);
    assert RowFor(log, d) == DailyRow(d, 3, 35);
    assert IsLeastDay(log, MinDay(log)) && IsGreatestDay(log, MaxDay(log));
    assert MinDay(log) == d && MaxDay(log) == d;
    assert DailyRentTable(log) == RowsFrom(log, d, 1);
  }

  /**
   * The example of three records on 2011-01-01 with weather codes 1, 1, 2 and
   * counts 10, 20, 5: the weather table is clear 30, cloudy 5, and the daily
   * table has one row with 3 distinct ids and 35 rentals.
   */
  lemma ThreeRecordScenario(a: Record, b: Record, c: Record)
    requires a.dteday == ReferenceDay && b.dteday == ReferenceDay && c.dteday == ReferenceDay
    requires a.weathersit == 1 && b.weathersit == 1 && c.weathersit == 2
    requires a.cnt == 10 && b.cnt == 20 && c.cnt == 5
    requires a.instant != b.instant && a.instant != c.instant && b.instant != c.instant
    ensures Render([a, b, c], ReferenceDay, ReferenceDay).weather ==
      [LabeledRow(Some("clear"), 30), LabeledRow(Some("cloudy"), 5)]
    ensures Render([a, b, c], ReferenceDay, ReferenceDay).daily == [DailyRow(ReferenceDay, 3, 35)]
    ensures Render([a, b, c], ReferenceDay, ReferenceDay).totalRent == 35
  {
    var log := [a, b, c];
    FilterRangeAll(log, ReferenceDay, ReferenceDay);
    ScenarioWeather(a, b, c);
    ScenarioDaily(a, b, c, ReferenceDay);
    assert TotalRent([DailyRow(ReferenceDay, 3, 35)]) == 35;
  }

  /**
   * The whole script on a raw table: sort it, take the bounds for the date
   * input, filter to the chosen dates and build every table. The headline count
   * is the `cnt` sum of the raw records in range, whatever their order.
   */
  method RunDashboard(raw: seq<Record>, start: Day, end: Day)
    returns (all: seq<Record>, bounds: Option<(Day, Day)>, view: View)
    ensures SortedByDay(all) && multiset(all) == multiset(raw)
    ensures bounds.None? <==> raw == []
    ensures bounds.Some? ==> IsLeastDay(raw, bounds.value.0) && IsGreatestDay(raw, bounds.value.1)
    ensures SortedByDay(MainDf(all, start, end))
    ensures view == Render(all, start, end)
    ensures view.totalRent == SumCnt(FilterRange(raw, start, end))
  {
    all, bounds := LoadLog(raw);
    FilterRangeSorted(all, start, end);
    view := Render(all, start, end);
    RenderConservesCnt(all, start, end);
    FilterRangePermutation(all, raw, start, end);
  }
}
