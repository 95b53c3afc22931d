/**
 * The soil-fertility page: the six-field check before analysis is requested,
 * the colour of a nutrient level, the five chart items built from the
 * backend's levels, the overall health colour and the low-nutrient alerts.
 */
module SoilFertilityView {
  import opened Basics
  import opened Text
  import Fertility

  // ---------------------------------------------------------- the form state

  const FillAllSix: string := "⚠️ Please fill in all 6 fields."
  const AnalysisFailed: string := "Error analyzing soil."

  /** The body of a successful /analyze-fertility reply. */
  datatype Analysis = Analysis(levels: map<string, string>, recommendations: seq<string>)

  /** What the request comes back with; a failure carries the server's error field and the error's message. */
  datatype AnalysisReply =
    | Analysed(analysis: Analysis)
    | AnalysisRequestFailed(serverError: Option<string>, message: string)

  /** The text shown for a failed request: the server's error, else the message, else the fixed text. */
  function FailureText(serverError: Option<string>, message: string): (t: string)
    ensures serverError.Some? && serverError.value != "" ==> t == serverError.value
    ensures (serverError.None? || serverError.value == "") && message != "" ==> t == message
    ensures (serverError.None? || serverError.value == "") && message == "" ==> t == AnalysisFailed
  {
    if serverError.Some? && serverError.value != "" then serverError.value
    else if message != "" then message
    else AnalysisFailed
  }

  class SoilForm {
    var n: string
    var p: string
    var k: string
    var ph: string
    var organicMatter: string
    var location: string
    var data: Option<Analysis>
    var isLoading: bool
    var error: Option<string>

    predicate Filled()
      reads this
    {
      n != "" && p != "" && k != "" && ph != "" && organicMatter != "" && location != ""
    }

    constructor()
      ensures n == "" && p == "" && k == "" && ph == "" && organicMatter == "" && location == ""
      ensures data.None? && !isLoading && error.None?
    {
      n, p, k, ph, organicMatter, location := "", "", "", "", "", "";
      data, isLoading, error := None, false, None;
    }

    /**
     * handleAnalyze. The previous result and error are cleared first; an
     * empty field raises the fixed message before any request; otherwise
     * `reply` is what the server answered. Loading ends on every path.
     */
    method Analyze(reply: AnalysisReply) returns (sent: bool)
      modifies this
      ensures n == old(n) && p == old(p) && k == old(k) && ph == old(ph)
      ensures organicMatter == old(organicMatter) && location == old(location)
      ensures sent <==> Filled()
      ensures !isLoading
      ensures !sent ==> data.None? && error == Some(FillAllSix)
      ensures sent && reply.Analysed? ==> data == Some(reply.analysis) && error.None?
      ensures sent && reply.AnalysisRequestFailed? ==>
        data.None? && error == Some(FailureText(reply.serverError, reply.message))
    {
      isLoading := true;
      error := None;
      data := None;
      if n == "" || p == "" || k == "" || ph == "" || organicMatter == "" || location == "" {
        error := Some(FailureText(None, FillAllSix));
        isLoading := false;
        return false;
      }
      sent := true;
      match reply {
        case Analysed(a) =>
          data := Some(a);
        case AnalysisRequestFailed(e, m) =>
          error := Some(FailureText(e, m));
      }
      isLoading := false;
    }
  }

  // ---------------------------------------------------------------- colours

  const Red: string := "#e74c3c"
  const Orange: string := "#f39c12"
  const Green: string := "#27ae60"
  const DefaultGreen: string := "#00a86b"

  /** getLevelColor; `None` is an undefined level. */
  function LevelColor(level: Option<string>): string {
    match level
    case None => DefaultGreen
    case Some(s) =>
      match Lower(s)
      case "low" => Red
      case "medium" => Orange
      case "high" => Green
      case _ => DefaultGreen
  }

  /** The colour depends on the level only up to case; undefined and unknown levels get the default. */
  lemma LevelColorSpec(level: Option<string>)
    ensures level.None? ==> LevelColor(level) == DefaultGreen
    ensures level.Some? ==>
      && (LevelColor(level) == Red <==> Lower(level.value) == "low")
      && (LevelColor(level) == Orange <==> Lower(level.value) == "medium")
      && (LevelColor(level) == Green <==> Lower(level.value) == "high")
      && (LevelColor(level) == DefaultGreen <==> Lower(level.value) !in {"low", "medium", "high"})
    ensures level.Some? ==> LevelColor(Some(Lower(level.value))) == LevelColor(level)
  {
    if level.Some? {
      LowerIdempotent(level.value);
    }
  }

  // ------------------------------------------------------------- chart data

  /** One point of the radar chart. */
  datatype ChartItem = ChartItem(nutrient: string, value: real, level: Option<string>, color: string)

  /** The five numbers as parsed from the inputs; `None` is a value that does not parse. */
  datatype Parsed = Parsed(n: Option<real>, p: Option<real>, k: Option<real>, ph: Option<real>, organicMatter: Option<real>)

  function Lookup(levels: map<string, string>, key: string): Option<string> {
    if key in levels then Some(levels[key]) else None
  }

  /** `parseFloat(x) || 0`: an unparsable or zero value shows as 0. */
  function Shown(x: Option<real>): real {
    x.GetOr(0.0)
  }

  function LevelItem(nutrient: string, value: Option<real>, level: Option<string>): ChartItem {
    ChartItem(nutrient, Shown(value), level, LevelColor(level))
  }

  const ChartNutrients: seq<string> := ["Nitrogen", "Phosphorus", "Potassium", "pH", "Organic Matter"]

  /** chartData for a reply's levels. */
  function ChartData(levels: map<string, string>, x: Parsed): (items: seq<ChartItem>)
    ensures |items| == 5
    ensures forall i :: 0 <= i < 5 ==> items[i].nutrient == ChartNutrients[i]
    ensures items[4].level == Some("medium") && items[4].color == DefaultGreen
    ensures items[0].level == Lookup(levels, "n_level") && items[1].level == Lookup(levels, "p_level")
    ensures items[2].level == Lookup(levels, "k_level") && items[3].level == Lookup(levels, "ph_level")
    ensures forall i :: 0 <= i < 4 ==> items[i].color == LevelColor(items[i].level)
  {
    [ LevelItem("Nitrogen", x.n, Lookup(levels, "n_level")),
      LevelItem("Phosphorus", x.p, Lookup(levels, "p_level")),
      LevelItem("Potassium", x.k, Lookup(levels, "k_level")),
      LevelItem("pH", x.ph, Lookup(levels, "ph_level")),
      ChartItem("Organic Matter", Shown(x.organicMatter), Some("medium"), DefaultGreen) ]
  }

  /** overallColor: any "Low" wins over any "Medium", which wins over the rest. */
  function OverallColor(levels: map<string, string>): (c: string)
    ensures c == Red <==> "Low" in levels.Values
    ensures c == Orange <==> "Low" !in levels.Values && "Medium" in levels.Values
    ensures c == Green <==> "Low" !in levels.Values && "Medium" !in levels.Values
  {
    if "Low" in levels.Values then Red
    else if "Medium" in levels.Values then Orange
    else Green
  }

  /** `item.level.toLowerCase() === "low"` for an item that has a level. */
  predicate IsLow(item: ChartItem) {
    item.level.Some? && Lower(item.level.value) == "low"
  }

  /** The items whose level lower-cases to "low", each as often as in `items`, in order. */
  function LowItems(items: seq<ChartItem>): (r: seq<ChartItem>)
    ensures forall x :: multiset(r)[x] == if IsLow(x) then multiset(items)[x] else 0
    ensures Subsequence(r, items)
  {
    if items == [] then []
    else
      var rest := LowItems(items[1..]);
      FilterConsCount(items, IsLow, rest);
      if IsLow(items[0]) then [items[0]] + rest else rest
  }

  /**
   * The alert filter: the items whose level lower-cases to "low", in order.
   * Lower-casing an undefined level throws, which is `None`.
   */
  function Alerts(items: seq<ChartItem>): (r: Option<seq<ChartItem>>)
    ensures r.Some? <==> forall i :: 0 <= i < |items| ==> items[i].level.Some?
    ensures r.Some? ==> forall x :: multiset(r.value)[x] == if IsLow(x) then multiset(items)[x] else 0
    ensures r.Some? ==> Subsequence(r.value, items)
  {
    if forall i :: 0 <= i < |items| ==> items[i].level.Some? then Some(LowItems(items)) else None
  }

  /** What the counts say item by item: every alert is low, and every low item is alerted. */
  lemma AlertsMembers(items: seq<ChartItem>)
    requires Alerts(items).Some?
    ensures forall j :: 0 <= j < |Alerts(items).value| ==> IsLow(Alerts(items).value[j])
    ensures forall i :: 0 <= i < |items| && IsLow(items[i]) ==> items[i] in Alerts(items).value
  {
    var r := Alerts(items).value;
    forall j | 0 <= j < |r| ensures IsLow(r[j]) {
      assert multiset(r)[r[j]] > 0;
    }
    forall i | 0 <= i < |items| && IsLow(items[i]) ensures items[i] in r {
      assert multiset(items)[items[i]] > 0;
    }
  }

  // ------------------------------------------- against the backend's levels

  function Names(items: seq<ChartItem>): seq<string> {
    if items == [] then [] else [items[0].nutrient] + Names(items[1..])
  }

  /** For the levels the backend computes, overall health is red when N, P or K is low and orange otherwise: never green. */
  lemma OverallColorOfBackendLevels(r: Fertility.Reading)
    ensures var c := OverallColor(Fertility.Levels(r));
      && (c == Red <==> r.n < 100.0 || r.p < 20.0 || r.k < 100.0)
      && (c == Orange <==> r.n >= 100.0 && r.p >= 20.0 && r.k >= 100.0)
      && c != Green
  {
    var m := Fertility.Levels(r);
    assert m["n_level"] in m.Values && m["p_level"] in m.Values && m["k_level"] in m.Values;
    if "Low" in m.Values {
      var key :| key in m && m[key] == "Low";
    }
  }

  /** Of the labels the backend emits, only "Low" lower-cases to "low". */
  lemma BackendLabelsLowness()
    ensures Lower("Low") == "low"
    ensures Lower("Medium") != "low" && Lower("Acidic") != "low" && Lower("Neutral") != "low"
    ensures Lower("medium") != "low"
  {
    assert Lower("Medium")[0] == 'm';
    assert Lower("Acidic")[0] == 'a';
    assert Lower("Neutral")[0] == 'n';
    assert Lower("medium")[0] == 'm';
  }

  /** The nutrient names of the low items, in order. */
  function LowNames(items: seq<ChartItem>): seq<string> {
    if items == [] then []
    else (if IsLow(items[0]) then [items[0].nutrient] else []) + LowNames(items[1..])
  }

  /** The alerts carry exactly the names of the low items. */
  lemma AlertsNames(items: seq<ChartItem>)
    requires forall i :: 0 <= i < |items| ==> items[i].level.Some?
    ensures Alerts(items).Some? && Names(Alerts(items).value) == LowNames(items)
  {
    LowItemsNames(items);
  }

  lemma {:induction false} LowItemsNames(items: seq<ChartItem>)
    ensures Names(LowItems(items)) == LowNames(items)
  {
    if items != [] {
      LowItemsNames(items[1..]);
      var tail := LowItems(items[1..]);
      var head: seq<ChartItem> := if IsLow(items[0]) then [items[0]] else [];
      assert LowItems(items) == head + tail;
      NamesAppend(head, tail);
    }
  }

  /** Filtering five items of which the last two are not low. */
  lemma AlertsOfFive(items: seq<ChartItem>)
    requires |items| == 5 && forall i :: 0 <= i < 5 ==> items[i].level.Some?
    requires !IsLow(items[3]) && !IsLow(items[4])
    ensures Alerts(items).Some?
    ensures Names(Alerts(items).value) ==
      (if IsLow(items[0]) then [items[0].nutrient] else []) +
      (if IsLow(items[1]) then [items[1].nutrient] else []) +
      (if IsLow(items[2]) then [items[2].nutrient] else [])
  {
    AlertsNames(items);
    LowNamesOfFive(items);
  }

  /** The low names of five items of which the last two are not low. */
  lemma LowNamesOfFive(items: seq<ChartItem>)
    requires |items| == 5 && !IsLow(items[3]) && !IsLow(items[4])
    ensures LowNames(items) ==
      (if IsLow(items[0]) then [items[0].nutrient] else []) +
      (if IsLow(items[1]) then [items[1].nutrient] else []) +
      (if IsLow(items[2]) then [items[2].nutrient] else [])
  {
    assert items[4..][1..] == [] && items[4..][0] == items[4];
    assert LowNames(items[4..]) == [];
    assert items[3..][1..] == items[4..] && items[3..][0] == items[3];
    assert LowNames(items[3..]) == [];
    assert items[2..][1..] == items[3..] && items[2..][0] == items[2];
    var n2: seq<string> := if IsLow(items[2]) then [items[2].nutrient] else [];
    assert LowNames(items[2..]) == n2;
    assert items[1..][1..] == items[2..] && items[1..][0] == items[1];
    var n1: seq<string> := if IsLow(items[1]) then [items[1].nutrient] else [];
    assert LowNames(items[1..]) == n1 + n2;
    var n0: seq<string> := if IsLow(items[0]) then [items[0].nutrient] else [];
    assert LowNames(items) == n0 + (n1 + n2);
    assert n0 + (n1 + n2) == n0 + n1 + n2;
  }

  /** The chart items of the backend's levels, and which of them are low. */
  lemma BackendItems(r: Fertility.Reading, x: Parsed)
    ensures var items := ChartData(Fertility.Levels(r), x);
      && (forall i :: 0 <= i < 5 ==> items[i].level.Some?)
      && (IsLow(items[0]) <==> r.n < 100.0)
      && (IsLow(items[1]) <==> r.p < 20.0)
      && (IsLow(items[2]) <==> r.k < 100.0)
      && !IsLow(items[3]) && !IsLow(items[4])
  {
    var m := Fertility.Levels(r);
    assert m[Fertility.LevelKey(Fertility.Nitrogen)] == if r.n < 100.0 then "Low" else "Medium";
    assert m[Fertility.LevelKey(Fertility.Phosphorus)] == if r.p < 20.0 then "Low" else "Medium";
    assert m[Fertility.LevelKey(Fertility.Potassium)] == if r.k < 100.0 then "Low" else "Medium";
    assert m[Fertility.LevelKey(Fertility.Ph)] == if r.ph < 5.5 then "Acidic" else "Neutral";
    BackendLabelsLowness();
  }

  /**
   * For the backend's levels every chart item has a level, and the alerts are
   * exactly the low ones among Nitrogen, Phosphorus and Potassium, in that
   * order; pH ("Acidic"/"Neutral") and organic matter never alert.
   */
  lemma AlertsOfBackendLevels(r: Fertility.Reading, x: Parsed)
    ensures var a := Alerts(ChartData(Fertility.Levels(r), x));
      && a.Some?
      && Names(a.value) ==
           (if r.n < 100.0 then ["Nitrogen"] else []) +
           (if r.p < 20.0 then ["Phosphorus"] else []) +
           (if r.k < 100.0 then ["Potassium"] else [])
  {
    var items := ChartData(Fertility.Levels(r), x);
    BackendItems(r, x);
    AlertsOfFive(items);
  }

  lemma {:induction false} NamesAppend(a: seq<ChartItem>, b: seq<ChartItem>)
    ensures Names(a + b) == Names(a) + Names(b)
  {
    if a != [] {
      assert (a + b)[1..] == a[1..] + b;
      NamesAppend(a[1..], b);
    } else {
      assert a + b == b;
    }
  }
}
