/**
 * The code-to-label maps of the dashboard and their application with
 * pandas' `Series.map`: a code that is not a key gives a missing value (NaN).
 */
module Labels {
  import opened Optional
  import opened GroupTotals

  const WeatherLabels: map<int, string> := map[1 := "clear", 2 := "cloudy", 3 := "raining", 4 := "storm"]
  const WeekLabels: map<int, string> := map[1 := "Weekdays", 0 := "Weekends"]
  const HolidayLabels: map<int, string> := map[1 := "Holiday", 0 := "Not Holiday"]
  const SeasonLabels: map<int, string> := map[1 := "Spring", 2 := "Summer", 3 := "Fall", 4 := "Winter"]

  /** The label of `c`, or missing when `c` is not a key. */
  function MapCode(m: map<int, string>, c: int): (l: Option<string>)
    ensures l.Some? <==> c in m
    ensures l.Some? ==> l.value == m[c]
  {
    if c in m then Some(m[c]) else None
  }

  /** No two codes share a label. */
  ghost predicate Injective(m: map<int, string>)
  {
    forall a, b :: a in m && b in m && a != b ==> m[a] != m[b]
  }

  /** The four maps: their keys, and each gives distinct labels. */
  lemma LabelMaps()
    ensures WeatherLabels.Keys == {1, 2, 3, 4} && Injective(WeatherLabels)
    ensures SeasonLabels.Keys == {1, 2, 3, 4} && Injective(SeasonLabels)
    ensures WeekLabels.Keys == {0, 1} && Injective(WeekLabels)
    ensures HolidayLabels.Keys == {0, 1} && Injective(HolidayLabels)
  {
  }

  /** A group-table row after its code column is overwritten by its label. */
  datatype LabeledRow = LabeledRow(category: Option<string>, total: nat)

  /** Overwrites the code column of a table with its labels; rows and totals stay. */
  function Relabel(t: seq<GroupRow>, m: map<int, string>): (r: seq<LabeledRow>)
    ensures |r| == |t|
    ensures forall k :: 0 <= k < |t| ==> r[k].category == MapCode(m, t[k].code) && r[k].total == t[k].total
  {
    if t == [] then [] else [LabeledRow(MapCode(m, t[0].code), t[0].total)] + Relabel(t[1..], m)
  }

  function SumLabeled(r: seq<LabeledRow>): nat
  {
    if r == [] then 0 else r[0].total + SumLabeled(r[1..])
  }

  /** Labelling never changes the sum of the totals. */
  lemma {:induction false} RelabelConserves(t: seq<GroupRow>, m: map<int, string>)
    ensures SumLabeled(Relabel(t, m)) == SumTotals(t)
  {
    if t != [] {
      assert Relabel(t, m)[1..] == Relabel(t[1..], m);
      RelabelConserves(t[1..], m);
    }
  }

  /**
   * A table ascending by code whose codes are all keys of an injective map
   * gets pairwise distinct labels, none of them missing.
   */
  lemma RelabelDistinct(t: seq<GroupRow>, m: map<int, string>)
    requires StrictlyAscending(t) && Injective(m)
    requires forall k :: 0 <= k < |t| ==> t[k].code in m
    ensures forall k :: 0 <= k < |t| ==> Relabel(t, m)[k].category.Some?
    ensures forall i, j :: 0 <= i < j < |t| ==> Relabel(t, m)[i].category != Relabel(t, m)[j].category
  {
  }

  /** The season table keeps its code and gains a `season_name` column. */
  datatype SeasonRow = SeasonRow(season: int, cnt: nat, seasonName: Option<string>)

  function NameSeasons(t: seq<GroupRow>): (r: seq<SeasonRow>)
    ensures |r| == |t|
    ensures forall k :: 0 <= k < |t| ==>
      r[k].season == t[k].code && r[k].cnt == t[k].total && r[k].seasonName == MapCode(SeasonLabels, t[k].code)
  {
    if t == [] then [] else [SeasonRow(t[0].code, t[0].total, MapCode(SeasonLabels, t[0].code))] + NameSeasons(t[1..])
  }

  function SumSeasons(r: seq<SeasonRow>): nat
  {
    if r == [] then 0 else r[0].cnt + SumSeasons(r[1..])
  }

  /** Naming the seasons never changes the sum of the counts. */
  lemma {:induction false} NameSeasonsConserves(t: seq<GroupRow>)
    ensures SumSeasons(NameSeasons(t)) == SumTotals(t)
  {
    if t != [] {
      assert NameSeasons(t)[1..] == NameSeasons(t[1..]);
      NameSeasonsConserves(t[1..]);
    }
  }
}
