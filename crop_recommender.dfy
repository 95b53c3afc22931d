/**
 * The crop recommender page: the five-field check before a recommendation is
 * requested, and the suitability bar drawn for every recommended crop from
 * the ideal temperature and rainfall ranges of that crop.
 */
module CropRecommender {
  import opened Basics
  import opened Text

  // ---------------------------------------------------------- the form state

  const FillAllFive: string := "Please fill in all 5 fields."
  const ConnectionError: string := "Error connecting to the server."

  /** What the /detailed-recommendation request comes back with. */
  datatype RecommendationReply =
    | Recommended(crops: string, analysis: string)
    | RequestFailed(serverError: Option<string>)

  /** The component's state variables; the five inputs hold the text typed in. */
  class RecommenderForm {
    var soil: string
    var season: string
    var stateName: string
    var rainfall: string
    var temp: string
    var crops: string
    var analysis: string
    var isLoading: bool
    var error: string

    /** All five inputs are non-empty, the condition for sending the request. */
    predicate Filled()
      reads this
    {
      soil != "" && season != "" && rainfall != "" && temp != "" && stateName != ""
    }

    constructor()
      ensures soil == "" && season == "" && stateName == "" && rainfall == "" && temp == ""
      ensures crops == "" && analysis == "" && !isLoading && error == ""
    {
      soil, season, stateName, rainfall, temp := "", "", "", "", "";
      crops, analysis, isLoading, error := "", "", false, "";
    }

    /**
     * handleGetRecommendations. The previous result and error are cleared;
     * with an empty input the request is not sent and the fixed message is
     * shown; otherwise `reply` is what the server answered. Loading ends on
     * every path.
     */
    method GetRecommendations(reply: RecommendationReply) returns (sent: bool)
      modifies this
      ensures soil == old(soil) && season == old(season) && stateName == old(stateName)
      ensures rainfall == old(rainfall) && temp == old(temp)
      ensures sent <==> Filled()
      ensures !isLoading
      ensures !sent ==> error == FillAllFive && crops == "" && analysis == ""
      ensures sent && reply.Recommended? ==>
        crops == reply.crops && analysis == reply.analysis && error == ""
      ensures sent && reply.RequestFailed? ==>
        && crops == "" && analysis == ""
        && error == (if reply.serverError.Some? && reply.serverError.value != ""
                     then reply.serverError.value else ConnectionError)
    {
      error := "";
      crops := "";
      analysis := "";
      isLoading := true;
      if soil == "" || season == "" || rainfall == "" || temp == "" || stateName == "" {
        error := FillAllFive;
        isLoading := false;
        return false;
      }
      sent := true;
      match reply {
        case Recommended(c, a) =>
          crops := c;
          analysis := a;
        case RequestFailed(e) =>
          error := if e.Some? && e.value != "" then e.value else ConnectionError;
      }
      isLoading := false;
    }
  }

  // ------------------------------------------------------------ suitability

  /** A closed interval `[lo, hi]` of the `IDEAL` table. */
  datatype Range = Range(lo: real, hi: real)

  datatype Ideal = Ideal(temp: Range, rain: Range)

  /** The entry for unlisted crops. */
  const DefaultIdeal: Ideal := Ideal(Range(20.0, 35.0), Range(400.0, 1200.0))

  const ListedCrops: set<string> :=
    {"rice", "wheat", "maize", "sorghum", "bajra", "okra", "cucumber", "sunflower", "groundnut"}

  /** The `IDEAL` table; every listed range is non-degenerate. */
  function IdealFor(key: string): (r: Option<Ideal>)
    ensures r.Some? <==> key in ListedCrops
    ensures r.Some? ==> r.value.temp.lo < r.value.temp.hi && r.value.rain.lo < r.value.rain.hi
  {
    match key
    case "rice" => Some(Ideal(Range(25.0, 35.0), Range(1000.0, 2000.0)))
    case "wheat" => Some(Ideal(Range(10.0, 25.0), Range(400.0, 700.0)))
    case "maize" => Some(Ideal(Range(20.0, 32.0), Range(500.0, 1000.0)))
    case "sorghum" => Some(Ideal(Range(25.0, 35.0), Range(400.0, 800.0)))
    case "bajra" => Some(Ideal(Range(28.0, 38.0), Range(300.0, 700.0)))
    case "okra" => Some(Ideal(Range(22.0, 35.0), Range(600.0, 1000.0)))
    case "cucumber" => Some(Ideal(Range(20.0, 30.0), Range(500.0, 1000.0)))
    case "sunflower" => Some(Ideal(Range(20.0, 30.0), Range(500.0, 800.0)))
    case "groundnut" => Some(Ideal(Range(25.0, 35.0), Range(500.0, 1000.0)))
    case _ => None
  }

  /** The table key of a crop name: its first space-separated word, lower-cased. */
  function LookupKey(name: string): (key: string)
    ensures ' ' !in key
    ensures |key| <= |name| && key == Lower(name)[..|key|]
    ensures |key| < |name| ==> Lower(name)[|key|] == ' '
  {
    FirstField(Lower(name), ' ')
  }

  /** The ranges used for a crop name, falling back to the default entry. */
  function IdealOf(name: string): (r: Ideal)
    ensures r.temp.lo < r.temp.hi && r.rain.lo < r.rain.hi
    ensures LookupKey(name) in ListedCrops ==> Some(r) == IdealFor(LookupKey(name))
    ensures LookupKey(name) !in ListedCrops ==> r == DefaultIdeal
  {
    IdealFor(LookupKey(name)).GetOr(DefaultIdeal)
  }

  function Mid(r: Range): real {
    (r.lo + r.hi) / 2.0
  }

  function HalfWidth(r: Range): real {
    (r.hi - r.lo) / 2.0
  }

  /** Distance from the midpoint in half-widths of the range. */
  function Deviation(x: real, r: Range): real
    requires r.lo < r.hi
  {
    Abs(x - Mid(r)) / HalfWidth(r)
  }

  function TempScore(temp: real, name: string): real {
    MaxReal(0.0, 100.0 - Deviation(temp, IdealOf(name).temp) * 60.0)
  }

  function RainScore(rainfall: real, name: string): real {
    MaxReal(0.0, 100.0 - Deviation(rainfall, IdealOf(name).rain) * 40.0)
  }

  /** The weighted score, clamped to [30, 100]. */
  function Suitability(temp: real, rainfall: real, name: string): real {
    MaxReal(30.0, MinReal(100.0, TempScore(temp, name) * 0.6 + RainScore(rainfall, name) * 0.4))
  }

  const Red: string := "#ef5350"
  const Amber: string := "#ffca28"
  const Green: string := "#66bb6a"

  /** getColor */
  function ColorOf(value: real): string {
    if value < 50.0 then Red else if value < 70.0 then Amber else Green
  }

  lemma DeviationNonNegative(x: real, r: Range)
    requires r.lo < r.hi
    ensures Deviation(x, r) >= 0.0
  {
  }

  /** Both part scores lie in [0, 100] and the suitability in [30, 100]. */
  lemma ScoresBounded(temp: real, rainfall: real, name: string)
    ensures 0.0 <= TempScore(temp, name) <= 100.0
    ensures 0.0 <= RainScore(rainfall, name) <= 100.0
    ensures 30.0 <= Suitability(temp, rainfall, name) <= 100.0
  {
    DeviationNonNegative(temp, IdealOf(name).temp);
    DeviationNonNegative(rainfall, IdealOf(name).rain);
  }

  /** A crop grown at both midpoints of its ranges scores 100. */
  lemma MidpointsScoreFull(name: string)
    ensures TempScore(Mid(IdealOf(name).temp), name) == 100.0
    ensures RainScore(Mid(IdealOf(name).rain), name) == 100.0
    ensures Suitability(Mid(IdealOf(name).temp), Mid(IdealOf(name).rain), name) == 100.0
  {
  }

  /** A temperature closer to the midpoint never scores lower. */
  lemma TempScoreByDistance(t1: real, t2: real, name: string)
    ensures var r := IdealOf(name).temp;
      Abs(t1 - Mid(r)) <= Abs(t2 - Mid(r)) ==> TempScore(t1, name) >= TempScore(t2, name)
  {
    var r := IdealOf(name).temp;
    if Abs(t1 - Mid(r)) <= Abs(t2 - Mid(r)) {
      assert Deviation(t1, r) <= Deviation(t2, r) by {
        var h := HalfWidth(r);
        assert Abs(t1 - Mid(r)) / h <= Abs(t2 - Mid(r)) / h;
      }
    }
  }

  /** A rainfall closer to the midpoint never scores lower. */
  lemma RainScoreByDistance(r1: real, r2: real, name: string)
    ensures var r := IdealOf(name).rain;
      Abs(r1 - Mid(r)) <= Abs(r2 - Mid(r)) ==> RainScore(r1, name) >= RainScore(r2, name)
  {
    var r := IdealOf(name).rain;
    if Abs(r1 - Mid(r)) <= Abs(r2 - Mid(r)) {
      assert Deviation(r1, r) <= Deviation(r2, r) by {
        var h := HalfWidth(r);
        assert Abs(r1 - Mid(r)) / h <= Abs(r2 - Mid(r)) / h;
      }
    }
  }

  /** The temperature score is zero exactly when the deviation reaches 5/3 half-widths. */
  lemma TempScoreZero(temp: real, name: string)
    ensures TempScore(temp, name) == 0.0 <==> Deviation(temp, IdealOf(name).temp) >= 5.0 / 3.0
  {
  }

  /** The three colour bands: below 50, from 50 below 70, and from 70 up. */
  lemma ColorBands(value: real)
    ensures ColorOf(value) == Red <==> value < 50.0
    ensures ColorOf(value) == Amber <==> 50.0 <= value < 70.0
    ensures ColorOf(value) == Green <==> value >= 70.0
  {
  }
}
