/**
 * Soil-fertility rules of the agri-assistant backend: the threshold
 * classifier behind /analyze-fertility, the nutrient-gap to fertilizer-mass
 * conversion, and the input check of /calculate-fertilizer.
 * Quantities are `real`; the backend's final `round(..., 2)` is not modelled.
 */
module Fertility {
  import opened Basics
  import opened Text

  // ------------------------------------------------- analyze_fertility

  /** The four readings the classifier looks at, in the order it checks them. */
  datatype Nutrient = Ph | Nitrogen | Phosphorus | Potassium

  datatype Reading = Reading(n: real, p: real, k: real, ph: real)

  const CheckOrder: seq<Nutrient> := [Ph, Nitrogen, Phosphorus, Potassium]

  /** The dictionary key under which a level is reported. */
  function LevelKey(x: Nutrient): string {
    match x
    case Ph => "ph_level"
    case Nitrogen => "n_level"
    case Phosphorus => "p_level"
    case Potassium => "k_level"
  }

  const LevelKeys: set<string> := {"ph_level", "n_level", "p_level", "k_level"}

  function Value(r: Reading, x: Nutrient): real {
    match x
    case Ph => r.ph
    case Nitrogen => r.n
    case Phosphorus => r.p
    case Potassium => r.k
  }

  /** A reading strictly below this is flagged. */
  function Threshold(x: Nutrient): real {
    match x
    case Ph => 5.5
    case Nitrogen => 100.0
    case Phosphorus => 20.0
    case Potassium => 100.0
  }

  predicate Flagged(r: Reading, x: Nutrient) {
    Value(r, x) < Threshold(x)
  }

  function FlaggedLabel(x: Nutrient): string {
    if x == Ph then "Acidic" else "Low"
  }

  function UnflaggedLabel(x: Nutrient): string {
    if x == Ph then "Neutral" else "Medium"
  }

  function AdviceText(x: Nutrient): string {
    match x
    case Ph => "Apply lime."
    case Nitrogen => "Apply Nitrogen fertilizer."
    case Phosphorus => "Apply Phosphorus fertilizer."
    case Potassium => "Apply Potassium fertilizer."
  }

  function Rank(x: Nutrient): nat {
    match x
    case Ph => 0
    case Nitrogen => 1
    case Phosphorus => 2
    case Potassium => 3
  }

  /** The level reported for each nutrient of a reading. */
  function Levels(r: Reading): (m: map<string, string>)
    ensures m.Keys == LevelKeys
    ensures forall x :: m[LevelKey(x)] == if Flagged(r, x) then FlaggedLabel(x) else UnflaggedLabel(x)
  {
    map[
      "ph_level" := if r.ph < 5.5 then "Acidic" else "Neutral",
      "n_level" := if r.n < 100.0 then "Low" else "Medium",
      "p_level" := if r.p < 20.0 then "Low" else "Medium",
      "k_level" := if r.k < 100.0 then "Low" else "Medium"]
  }

  /** One advice line per flagged nutrient of `xs`, in the order of `xs`. */
  function AdviceFor(r: Reading, xs: seq<Nutrient>): seq<string> {
    if xs == [] then []
    else (if Flagged(r, xs[0]) then [AdviceText(xs[0])] else []) + AdviceFor(r, xs[1..])
  }

  function Recommendations(r: Reading): seq<string> {
    AdviceFor(r, CheckOrder)
  }

  /**
   * analyze_fertility: fills the levels dictionary and appends one advice
   * line per flagged reading, checking pH, N, P and K in that order.
   */
  method AnalyzeFertility(n: real, p: real, k: real, ph: real)
    returns (levels: map<string, string>, recommendations: seq<string>)
    ensures levels == Levels(Reading(n, p, k, ph))
    ensures recommendations == Recommendations(Reading(n, p, k, ph))
  {
    levels, recommendations := map[], [];
    if ph < 5.5 {
      levels := levels["ph_level" := "Acidic"];
      recommendations := recommendations + ["Apply lime."];
    } else {
      levels := levels["ph_level" := "Neutral"];
    }
    ghost var r0 := recommendations;
    assert r0 == (if ph < 5.5 then ["Apply lime."] else []);
    if n < 100.0 {
      levels := levels["n_level" := "Low"];
      recommendations := recommendations + ["Apply Nitrogen fertilizer."];
    } else {
      levels := levels["n_level" := "Medium"];
    }
    assert recommendations == r0 + (if n < 100.0 then ["Apply Nitrogen fertilizer."] else []);
    ghost var r1 := recommendations;
    if p < 20.0 {
      levels := levels["p_level" := "Low"];
      recommendations := recommendations + ["Apply Phosphorus fertilizer."];
    } else {
      levels := levels["p_level" := "Medium"];
    }
    assert recommendations == r1 + (if p < 20.0 then ["Apply Phosphorus fertilizer."] else []);
    ghost var r2 := recommendations;
    if k < 100.0 {
      levels := levels["k_level" := "Low"];
      recommendations := recommendations + ["Apply Potassium fertilizer."];
    } else {
      levels := levels["k_level" := "Medium"];
    }
    assert recommendations == r2 + (if k < 100.0 then ["Apply Potassium fertilizer."] else []);
    RecommendationsUnfolded(Reading(n, p, k, ph));
  }

  /** The advice list spelled out nutrient by nutrient. */
  lemma RecommendationsUnfolded(r: Reading)
    ensures Recommendations(r) ==
      (if r.ph < 5.5 then ["Apply lime."] else []) +
      (if r.n < 100.0 then ["Apply Nitrogen fertilizer."] else []) +
      (if r.p < 20.0 then ["Apply Phosphorus fertilizer."] else []) +
      (if r.k < 100.0 then ["Apply Potassium fertilizer."] else [])
  {
    var a4 := AdviceFor(r, []);
    var a3 := AdviceFor(r, [Potassium]);
    assert [Potassium][1..] == [];
    assert a3 == (if r.k < 100.0 then ["Apply Potassium fertilizer."] else []) + a4;
    var a2 := AdviceFor(r, [Phosphorus, Potassium]);
    assert [Phosphorus, Potassium][1..] == [Potassium];
    assert a2 == (if r.p < 20.0 then ["Apply Phosphorus fertilizer."] else []) + a3;
    var a1 := AdviceFor(r, [Nitrogen, Phosphorus, Potassium]);
    assert [Nitrogen, Phosphorus, Potassium][1..] == [Phosphorus, Potassium];
    assert a1 == (if r.n < 100.0 then ["Apply Nitrogen fertilizer."] else []) + a2;
    assert CheckOrder[1..] == [Nitrogen, Phosphorus, Potassium];
  }

  /** An advice line is emitted exactly for the flagged nutrients. */
  lemma {:induction false} AdviceForIff(r: Reading, xs: seq<Nutrient>, x: Nutrient)
    ensures AdviceText(x) in AdviceFor(r, xs) <==> x in xs && Flagged(r, x)
  {
    if xs != [] {
      AdviceForIff(r, xs[1..], x);
      assert xs == [xs[0]] + xs[1..];
    }
  }

  /** The nutrient an advice line stands for, as its place in the check order (4 for any other text). */
  function AdviceRank(line: string): nat {
    if line == "Apply lime." then 0
    else if line == "Apply Nitrogen fertilizer." then 1
    else if line == "Apply Phosphorus fertilizer." then 2
    else if line == "Apply Potassium fertilizer." then 3
    else 4
  }

  /** Advice lines come out in the order of `xs`: pH, N, P, K for the classifier. */
  lemma {:induction false} AdviceForOrdered(r: Reading, xs: seq<Nutrient>)
    requires forall i, j :: 0 <= i < j < |xs| ==> Rank(xs[i]) < Rank(xs[j])
    ensures forall i, j :: 0 <= i < j < |AdviceFor(r, xs)| ==>
      AdviceRank(AdviceFor(r, xs)[i]) < AdviceRank(AdviceFor(r, xs)[j])
    ensures xs != [] ==> forall i :: 0 <= i < |AdviceFor(r, xs)| ==> Rank(xs[0]) <= AdviceRank(AdviceFor(r, xs)[i])
  {
    if xs != [] {
      var tail := xs[1..];
      AdviceForOrdered(r, tail);
      var rest := AdviceFor(r, tail);
      var head: seq<string> := if Flagged(r, xs[0]) then [AdviceText(xs[0])] else [];
      assert AdviceFor(r, xs) == head + rest;
      assert AdviceRank(AdviceText(xs[0])) == Rank(xs[0]);
      if tail == [] {
        assert rest == [];
      } else {
        assert Rank(xs[0]) < Rank(tail[0]);
      }
    }
  }

  /** The classifier's report: four levels, and advice exactly for the flagged readings, in check order. */
  lemma AnalyzeFertilityReport(r: Reading)
    ensures Levels(r).Keys == LevelKeys
    ensures forall x :: AdviceText(x) in Recommendations(r) <==> Flagged(r, x)
    ensures forall i, j :: 0 <= i < j < |Recommendations(r)| ==>
      AdviceRank(Recommendations(r)[i]) < AdviceRank(Recommendations(r)[j])
  {
    forall x ensures AdviceText(x) in Recommendations(r) <==> Flagged(r, x) {
      AdviceForIff(r, CheckOrder, x);
    }
    AdviceForOrdered(r, CheckOrder);
  }

  /** The thresholds are strict: readings exactly at them are not flagged. */
  lemma BoundaryNotFlagged()
    ensures Levels(Reading(100.0, 20.0, 100.0, 5.5)) ==
      map["ph_level" := "Neutral", "n_level" := "Medium", "p_level" := "Medium", "k_level" := "Medium"]
    ensures Recommendations(Reading(100.0, 20.0, 100.0, 5.5)) == []
  {
  }

  // --------------------------------------- get_fertilizer_recommendation

  /** Crop nutrient targets in kg/ha. */
  datatype Target = Target(n: real, p: real, k: real)

  const KnownCrops: set<string> := {"rice", "wheat", "maize", "sugarcane", "cotton", "potato"}

  /** CROP_DATA.get(key). */
  function CropTarget(key: string): (t: Option<Target>)
    ensures t.Some? <==> key in KnownCrops
  {
    match key
    case "rice" => Some(Target(120.0, 60.0, 60.0))
    case "wheat" => Some(Target(150.0, 60.0, 40.0))
    case "maize" => Some(Target(180.0, 80.0, 50.0))
    case "sugarcane" => Some(Target(250.0, 80.0, 120.0))
    case "cotton" => Some(Target(160.0, 70.0, 80.0))
    case "potato" => Some(Target(180.0, 100.0, 120.0))
    case _ => None
  }

  /** Nutrient fractions of the three fertilizers. */
  const UreaN: real := 0.46
  const DapN: real := 0.18
  const DapP: real := 0.46
  const MopK: real := 0.60

  const CropNotFound: string := "Crop not found in our database."

  /** Python's `max(0, target - soil)`. */
  function Gap(target: real, soil: real): (g: real)
    ensures g >= 0.0
    ensures g == 0.0 <==> soil >= target
    ensures g > 0.0 ==> soil + g == target
  {
    if target - soil > 0.0 then target - soil else 0.0
  }

  datatype Plan = Plan(nGap: real, pGap: real, kGap: real, ureaKg: real, dapKg: real, mopKg: real)

  datatype Recommendation = Unknown(error: string) | Amounts(plan: Plan)

  /** get_fertilizer_recommendation before rounding. */
  function FertilizerRecommendation(n: real, p: real, k: real, crop: string): Recommendation {
    match CropTarget(Lower(crop))
    case None => Unknown(CropNotFound)
    case Some(t) =>
      var nGap := Gap(t.n, n);
      var pGap := Gap(t.p, p);
      var kGap := Gap(t.k, k);
      var mop := if kGap > 0.0 then kGap / MopK else 0.0;
      var dap := if pGap > 0.0 then pGap / DapP else 0.0;
      var nFromDap := dap * DapN;
      var nStillNeeded := Gap(nGap, nFromDap);
      var urea := if nStillNeeded > 0.0 then nStillNeeded / UreaN else 0.0;
      Amounts(Plan(nGap, pGap, kGap, urea, dap, mop))
  }

  /** The crop lookup is case-insensitive and succeeds exactly for the six known crops. */
  lemma CropLookup(n: real, p: real, k: real, crop: string)
    ensures FertilizerRecommendation(n, p, k, crop) == FertilizerRecommendation(n, p, k, Lower(crop))
    ensures FertilizerRecommendation(n, p, k, crop).Amounts? <==> Lower(crop) in KnownCrops
    ensures FertilizerRecommendation(n, p, k, crop).Unknown? ==>
      FertilizerRecommendation(n, p, k, crop) == Unknown(CropNotFound)
  {
    LowerIdempotent(crop);
  }

  /**
   * The amounts supply exactly the gaps: MOP covers the K gap, DAP the P gap,
   * and urea only the N that DAP's nitrogen leaves uncovered.
   */
  lemma PlanBalances(n: real, p: real, k: real, crop: string)
    requires FertilizerRecommendation(n, p, k, crop).Amounts?
    ensures var pl := FertilizerRecommendation(n, p, k, crop).plan;
      && pl.nGap >= 0.0 && pl.pGap >= 0.0 && pl.kGap >= 0.0
      && pl.ureaKg >= 0.0 && pl.dapKg >= 0.0 && pl.mopKg >= 0.0
      && pl.mopKg * MopK == pl.kGap
      && pl.dapKg * DapP == pl.pGap
      && pl.ureaKg * UreaN + pl.dapKg * DapN >= pl.nGap
      && (pl.dapKg * DapN >= pl.nGap ==> pl.ureaKg == 0.0)
      && (pl.dapKg * DapN < pl.nGap ==> pl.ureaKg * UreaN + pl.dapKg * DapN == pl.nGap)
  {
  }

  /** Each gap is zero exactly when the soil already meets the crop's target. */
  lemma GapsMeetTargets(n: real, p: real, k: real, crop: string)
    requires Lower(crop) in KnownCrops
    ensures var t := CropTarget(Lower(crop)).value;
      var pl := FertilizerRecommendation(n, p, k, crop).plan;
      && (pl.nGap == 0.0 <==> n >= t.n)
      && (pl.pGap == 0.0 <==> p >= t.p)
      && (pl.kGap == 0.0 <==> k >= t.k)
  {
  }

  // ------------------------------------------------ calculate_fertilizer

  /** Reply of the /calculate-fertilizer route. */
  datatype Reply = Reply(status: int, body: ReplyBody)
  datatype ReplyBody = ErrorBody(error: string) | PlanBody(plan: Plan)

  const MissingInput: string := "Missing N, P, K, or crop."
  const InternalError: string := "An internal server error occurred."

  /** Python truthiness of a JSON number that may be absent or null. */
  predicate TruthyNumber(v: Option<real>) {
    v.Some? && v.value != 0.0
  }

  /**
   * calculate_fertilizer. `None` stands for a missing key or a JSON null:
   * `float(None)` raises before the presence check and the handler answers 500.
   * The presence check is Python truthiness, so a zero reading is "missing".
   */
  function CalculateFertilizer(n: Option<real>, p: Option<real>, k: Option<real>, crop: Option<string>): Reply {
    if n.None? || p.None? || k.None? then Reply(500, ErrorBody(InternalError))
    else if !(TruthyNumber(n) && TruthyNumber(p) && TruthyNumber(k) && crop.Some? && crop.value != "") then
      Reply(400, ErrorBody(MissingInput))
    else
      match FertilizerRecommendation(n.value, p.value, k.value, crop.value)
      case Unknown(e) => Reply(404, ErrorBody(e))
      case Amounts(pl) => Reply(200, PlanBody(pl))
  }

  /** The status code of /calculate-fertilizer, case by case. */
  lemma CalculateFertilizerStatus(n: Option<real>, p: Option<real>, k: Option<real>, crop: Option<string>)
    ensures var r := CalculateFertilizer(n, p, k, crop);
      && (r.status == 500 <==> n.None? || p.None? || k.None?)
      && (r.status == 400 <==>
            n.Some? && p.Some? && k.Some? &&
            (n.value == 0.0 || p.value == 0.0 || k.value == 0.0 || crop.None? || crop.value == ""))
      && (r.status == 404 <==>
            TruthyNumber(n) && TruthyNumber(p) && TruthyNumber(k) &&
            crop.Some? && crop.value != "" && Lower(crop.value) !in KnownCrops)
      && (r.status == 200 <==>
            TruthyNumber(n) && TruthyNumber(p) && TruthyNumber(k) &&
            crop.Some? && Lower(crop.value) in KnownCrops)
      && (r.status == 200 ==> r.body == PlanBody(FertilizerRecommendation(n.value, p.value, k.value, crop.value).plan))
  {
    if crop.Some? {
      CropLookup(0.0, 0.0, 0.0, crop.value);
      if crop.value == "" {
        assert Lower(crop.value) == "";
      }
    }
    if TruthyNumber(n) && TruthyNumber(p) && TruthyNumber(k) && crop.Some? && crop.value != "" {
      CropLookup(n.value, p.value, k.value, crop.value);
    }
  }
}
