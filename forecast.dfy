/**
 * The per-day aggregation of get_5_day_forecast: three-hourly forecast
 * entries are grouped by date into a Python dict (which keeps insertion
 * order), then the first five dates in ascending string order are
 * summarised. Dates and weekday names are given strings (the backend derives
 * them from timestamps in the local time zone); `round` and `.title()` of the
 * output are not modelled.
 */
module Forecast {
  import opened Basics
  import opened Text

  /** One entry of the forecast list, reduced to the fields the aggregation reads. */
  datatype Entry = Entry(date: string, dayName: string, tempMin: real, tempMax: real, description: string, icon: string)

  /** The running summary kept for one date. */
  datatype DaySummary = DaySummary(dayName: string, minTemp: real, maxTemp: real, conditions: seq<string>, icon: string)

  /** A Python dict from date to summary: its keys in insertion order, and the mapping. */
  datatype DailyTable = DailyTable(order: seq<string>, days: map<string, DaySummary>)

  /** One element of the returned forecast. */
  datatype DayForecast = DayForecast(day: string, date: string, minTemp: real, maxTemp: real, condition: string, icon: string)

  const MaxDays: nat := 5

  /** The dict's keys are listed once each, in `order`. */
  ghost predicate ValidTable(t: DailyTable) {
    && (forall d :: d in t.order <==> d in t.days)
    && Distinct(t.order)
  }


  /** The body of the grouping loop for one entry. */
  function Step(t: DailyTable, e: Entry): DailyTable {
    if e.date !in t.days then
      DailyTable(t.order + [e.date], t.days[e.date := DaySummary(e.dayName, e.tempMin, e.tempMax, [e.description], e.icon)])
    else
      var s := t.days[e.date];
      DailyTable(t.order, t.days[e.date := s.(minTemp := MinReal(s.minTemp, e.tempMin),
                                               maxTemp := MaxReal(s.maxTemp, e.tempMax),
                                               conditions := s.conditions + [e.description])])
  }

  /** The dict after the grouping loop has consumed `es`. */
  function Aggregate(es: seq<Entry>): DailyTable {
    if es == [] then DailyTable([], map[])
    else Step(Aggregate(es[..|es| - 1]), es[|es| - 1])
  }

  // ------------------------------------------- reference definitions

  /** The entries whose date is `d`, in input order. */
  function OnDate(es: seq<Entry>, d: string): seq<Entry> {
    if es == [] then []
    else OnDate(es[..|es| - 1], d) + (if es[|es| - 1].date == d then [es[|es| - 1]] else [])
  }

  /** `OnDate` keeps exactly the entries of date `d`. */
  lemma {:induction false} OnDateMembers(es: seq<Entry>, d: string, e: Entry)
    ensures e in OnDate(es, d) <==> e in es && e.date == d
  {
    if es != [] {
      OnDateMembers(es[..|es| - 1], d, e);
      assert es == es[..|es| - 1] + [es[|es| - 1]];
    }
  }

  function Descriptions(es: seq<Entry>): (r: seq<string>)
    ensures |r| == |es|
    ensures forall i :: 0 <= i < |es| ==> r[i] == es[i].description
  {
    if es == [] then [] else Descriptions(es[..|es| - 1]) + [es[|es| - 1].description]
  }

  /** The smallest `tempMin` of a non-empty list of entries. */
  function LowestMin(es: seq<Entry>): (m: real)
    requires es != []
    ensures forall i :: 0 <= i < |es| ==> m <= es[i].tempMin
    ensures exists i :: 0 <= i < |es| && m == es[i].tempMin
  {
    if |es| == 1 then es[0].tempMin
    else
      var m := LowestMin(es[..|es| - 1]);
      assert forall i :: 0 <= i < |es| - 1 ==> es[..|es| - 1][i] == es[i];
      MinReal(m, es[|es| - 1].tempMin)
  }

  /** The largest `tempMax` of a non-empty list of entries. */
  function HighestMax(es: seq<Entry>): (m: real)
    requires es != []
    ensures forall i :: 0 <= i < |es| ==> es[i].tempMax <= m
    ensures exists i :: 0 <= i < |es| && m == es[i].tempMax
  {
    if |es| == 1 then es[0].tempMax
    else
      var m := HighestMax(es[..|es| - 1]);
      assert forall i :: 0 <= i < |es| - 1 ==> es[..|es| - 1][i] == es[i];
      MaxReal(m, es[|es| - 1].tempMax)
  }

  /** The grouping keeps one dict key per date, each listed once in insertion order. */
  lemma {:induction false} AggregateValid(es: seq<Entry>)
    ensures ValidTable(Aggregate(es))
  {
    if es != [] {
      AggregateValid(es[..|es| - 1]);
      var t := Aggregate(es[..|es| - 1]);
      if es[|es| - 1].date !in t.days {
        assert forall i :: 0 <= i < |t.order| ==> t.order[i] != es[|es| - 1].date;
      }
    }
  }

  /** A date is a key exactly when some entry has that date. */
  lemma {:induction false} AggregateKeys(es: seq<Entry>, d: string)
    ensures d in Aggregate(es).days <==> OnDate(es, d) != []
  {
    if es != [] {
      AggregateKeys(es[..|es| - 1], d);
    }
  }

  /**
   * What the grouping keeps for a date: the min of `temp_min`, the max of
   * `temp_max`, every condition in input order, and the weekday and icon of
   * the first entry of that date.
   */
  lemma {:induction false} AggregateDay(es: seq<Entry>, d: string)
    requires d in Aggregate(es).days
    ensures OnDate(es, d) != []
    ensures Aggregate(es).days[d] == DaySummary(OnDate(es, d)[0].dayName, LowestMin(OnDate(es, d)),
      HighestMax(OnDate(es, d)), Descriptions(OnDate(es, d)), OnDate(es, d)[0].icon)
  {
    var init := es[..|es| - 1];
    var e := es[|es| - 1];
    var t := Aggregate(init);
    var before := OnDate(init, d);
    var on := OnDate(es, d);
    AggregateKeys(init, d);
    assert Aggregate(es) == Step(t, e);
    assert on == before + (if e.date == d then [e] else []);
    StepAt(t, e, d);
    if d in t.days {
      AggregateDay(init, d);
      if e.date == d {
        SummarySnoc(before, e);
      } else {
        assert on == before;
      }
    } else {
      assert before == [];
      assert on == [e];
    }
  }

  /** What one step of the grouping loop leaves under the date `d`. */
  lemma StepAt(t: DailyTable, e: Entry, d: string)
    requires d in Step(t, e).days
    ensures d !in t.days ==> e.date == d
    ensures d !in t.days ==> Step(t, e).days[d] == DaySummary(e.dayName, e.tempMin, e.tempMax, [e.description], e.icon)
    ensures d in t.days && e.date != d ==> Step(t, e).days[d] == t.days[d]
    ensures d in t.days && e.date == d ==> (Step(t, e).days[d] ==
      DaySummary(t.days[d].dayName, MinReal(t.days[d].minTemp, e.tempMin), MaxReal(t.days[d].maxTemp, e.tempMax),
        t.days[d].conditions + [e.description], t.days[d].icon))
  {
  }

  /** Appending one entry to a non-empty day extends its summary by that entry. */
  lemma SummarySnoc(before: seq<Entry>, e: Entry)
    requires before != []
    ensures (before + [e])[0] == before[0]
    ensures LowestMin(before + [e]) == MinReal(LowestMin(before), e.tempMin)
    ensures HighestMax(before + [e]) == MaxReal(HighestMax(before), e.tempMax)
    ensures Descriptions(before + [e]) == Descriptions(before) + [e.description]
  {
    var on := before + [e];
    assert on[..|on| - 1] == before;
  }

  // ------------------------------------------------ most common condition

  /** An element of `xs` whose number of occurrences in `all` is maximal among the elements of `xs`. */
  function MostCommonOf(all: seq<string>, xs: seq<string>): (c: string)
    requires xs != []
    ensures c in xs
    ensures forall x :: x in xs ==> multiset(all)[x] <= multiset(all)[c]
  {
    if |xs| == 1 then xs[0]
    else
      var rest := MostCommonOf(all, xs[1..]);
      assert forall x :: x in xs ==> x == xs[0] || x in xs[1..];
      if multiset(all)[xs[0]] >= multiset(all)[rest] then xs[0] else rest
  }

  /** `max(set(conditions), key=conditions.count)`: some condition of maximal count. */
  function MostCommon(conditions: seq<string>): (c: string)
    requires conditions != []
    ensures c in conditions
    ensures forall x :: x in conditions ==> multiset(conditions)[x] <= multiset(conditions)[c]
  {
    MostCommonOf(conditions, conditions)
  }

  // ----------------------------------------------------------- methods

  /** The grouping loop of get_5_day_forecast. */
  method GroupByDay(entries: seq<Entry>) returns (table: DailyTable)
    ensures table == Aggregate(entries)
  {
    table := DailyTable([], map[]);
    var i := 0;
    while i < |entries|
      invariant 0 <= i <= |entries|
      invariant table == Aggregate(entries[..i])
    {
      var e := entries[i];
      if e.date !in table.days {
        table := DailyTable(table.order + [e.date],
          table.days[e.date := DaySummary(e.dayName, e.tempMin, e.tempMax, [e.description], e.icon)]);
      } else {
        var s := table.days[e.date];
        s := s.(minTemp := MinReal(s.minTemp, e.tempMin));
        s := s.(maxTemp := MaxReal(s.maxTemp, e.tempMax));
        s := s.(conditions := s.conditions + [e.description]);
        table := table.(days := table.days[e.date := s]);
      }
      assert entries[..i + 1][..i] == entries[..i];
      i := i + 1;
    }
    assert entries[..i] == entries;
  }

  lemma {:induction false} DistinctCounts(s: seq<string>)
    requires Distinct(s)
    ensures forall x :: multiset(s)[x] <= 1
  {
    if s != [] {
      DistinctCounts(s[1..]);
      assert s == [s[0]] + s[1..];
      assert s[0] !in s[1..];
    }
  }

  lemma {:induction false} CountsDistinct(s: seq<string>)
    requires forall x :: multiset(s)[x] <= 1
    ensures Distinct(s)
  {
    if s != [] {
      assert s == [s[0]] + s[1..];
      assert forall x :: multiset(s[1..])[x] <= multiset(s)[x];
      CountsDistinct(s[1..]);
      assert s[0] !in multiset(s[1..]);
      assert forall j :: 1 <= j < |s| ==> s[j] in s[1..];
    }
  }

  /** `sorted(keys)` of a dict: strictly ascending, and holding exactly the keys. */
  lemma SortedKeys(order: seq<string>)
    requires Distinct(order)
    ensures |Sort(order)| == |order|
    ensures Sorted(Sort(order)) && Distinct(Sort(order))
    ensures forall d :: d in Sort(order) <==> d in order
  {
    var keys := Sort(order);
    DistinctCounts(order);
    CountsDistinct(keys);
    forall d ensures d in keys <==> d in order {
      assert d in keys <==> d in multiset(keys);
    }
    assert |keys| == |multiset(keys)| == |multiset(order)| == |order|;
  }

  /** `sorted(keys)[:n]`: strictly ascending, and below every key it leaves out. */
  lemma {:induction false} SortedPrefix(order: seq<string>, n: nat)
    requires Distinct(order) && n <= |order|
    ensures |Sort(order)| == |order|
    ensures var chosen := Sort(order)[..n];
      && (forall i :: 0 <= i < n ==> chosen[i] in order)
      && (forall i, j :: 0 <= i < j < n ==> Below(chosen[i], chosen[j]) && chosen[i] != chosen[j])
      && (forall d, i :: d in order && d !in chosen && 0 <= i < n ==> Below(chosen[i], d))
  {
    var keys := Sort(order);
    SortedKeys(order);
    var chosen := keys[..n];
    forall d, i | d in order && d !in chosen && 0 <= i < n ensures Below(chosen[i], d) {
      var m :| 0 <= m < |keys| && keys[m] == d;
      assert m >= n;
    }
  }

  /** `f` is the output built from the summary its date has in `t`. */
  ghost predicate Summarises(f: DayForecast, t: DailyTable) {
    && f.date in t.days
    && var s := t.days[f.date];
    && f.day == s.dayName && f.icon == s.icon
    && f.minTemp == s.minTemp && f.maxTemp == s.maxTemp
    && (s.conditions != [] ==> f.condition == MostCommon(s.conditions))
  }

  /** The body of the output loop, for the chosen dates in order. */
  method SummariseDates(table: DailyTable, chosen: seq<string>) returns (out: seq<DayForecast>)
    requires forall i :: 0 <= i < |chosen| ==> chosen[i] in table.days
    ensures DatesOf(out) == chosen
    ensures forall i :: 0 <= i < |out| ==> Summarises(out[i], table)
  {
    out := [];
    var i := 0;
    while i < |chosen|
      invariant 0 <= i <= |chosen|
      invariant DatesOf(out) == chosen[..i]
      invariant forall j :: 0 <= j < i ==> Summarises(out[j], table)
    {
      var date := chosen[i];
      var s := table.days[date];
      var condition := if s.conditions == [] then "" else MostCommon(s.conditions);
      out := out + [DayForecast(s.dayName, date, s.minTemp, s.maxTemp, condition, s.icon)];
      i := i + 1;
    }
  }

  /**
   * The output loop of get_5_day_forecast: the first five dates in ascending
   * string order, each with its summary and a most common condition.
   */
  method FiveDaySummary(table: DailyTable) returns (out: seq<DayForecast>)
    requires ValidTable(table)
    ensures |out| == Min(MaxDays, |table.order|)
    ensures forall i :: 0 <= i < |out| ==> Summarises(out[i], table)
    ensures forall i, j :: 0 <= i < j < |out| ==> Below(out[i].date, out[j].date) && out[i].date != out[j].date
    ensures forall d, i :: d in table.days && d !in DatesOf(out) && 0 <= i < |out| ==> Below(out[i].date, d)
  {
    var keys := Sort(table.order);
    var chosen := keys[..Min(MaxDays, |keys|)];
    SortedPrefix(table.order, |chosen|);
    out := SummariseDates(table, chosen);
  }

  /** The dates of a forecast, in order. */
  function DatesOf(out: seq<DayForecast>): (r: seq<string>)
    ensures |r| == |out| && forall i :: 0 <= i < |out| ==> r[i] == out[i].date
  {
    seq(|out|, i requires 0 <= i < |out| => out[i].date)
  }

  /**
   * get_5_day_forecast after the API call: at most five days in ascending
   * date order, each summarising exactly the entries of its date.
   */
  method FiveDayForecast(entries: seq<Entry>) returns (out: seq<DayForecast>)
    ensures |out| <= MaxDays
    ensures forall i, j :: 0 <= i < j < |out| ==> Below(out[i].date, out[j].date) && out[i].date != out[j].date
    ensures forall e, i :: e in entries && e.date !in DatesOf(out) && 0 <= i < |out| ==> Below(out[i].date, e.date)
    ensures |out| == Min(MaxDays, |Aggregate(entries).order|)
    ensures forall i :: 0 <= i < |out| ==>
      var on := OnDate(entries, out[i].date);
      && on != []
      && out[i].minTemp == LowestMin(on)
      && out[i].maxTemp == HighestMax(on)
      && out[i].day == on[0].dayName && out[i].icon == on[0].icon
      && out[i].condition in Descriptions(on)
      && forall c :: c in Descriptions(on) ==>
           multiset(Descriptions(on))[c] <= multiset(Descriptions(on))[out[i].condition]
  {
    var table := GroupByDay(entries);
    AggregateValid(entries);
    out := FiveDaySummary(table);
    forall i | 0 <= i < |out|
      ensures var on := OnDate(entries, out[i].date);
        && on != []
        && out[i].minTemp == LowestMin(on)
        && out[i].maxTemp == HighestMax(on)
        && out[i].day == on[0].dayName && out[i].icon == on[0].icon
        && out[i].condition in Descriptions(on)
        && forall c :: c in Descriptions(on) ==>
             multiset(Descriptions(on))[c] <= multiset(Descriptions(on))[out[i].condition]
    {
      AggregateDay(entries, out[i].date);
    }
    forall e, i | e in entries && e.date !in DatesOf(out) && 0 <= i < |out| ensures Below(out[i].date, e.date) {
      OnDateMembers(entries, e.date, e);
      AggregateKeys(entries, e.date);
    }
  }
}
