/**
 * The rule-based first backend: city detection by substring, the pH-band
 * crop recommender with its temperature filter, the chatbot's ordered intent
 * routing, and the defaults of the /soil route. Weather readings come from an
 * external API and are inputs here.
 */
module LegacyBackend {
  import opened Basics
  import opened Text

  const KnownCities: seq<string> := ["bengaluru", "mumbai", "delhi", "chennai", "kolkata"]

  // ------------------------------------------------------------ detect_city

  /** Index of the first of `cities[from..]` that occurs in `query`. */
  function FirstCityFrom(query: string, cities: seq<string>, from: nat): (r: Option<nat>)
    decreases |cities| - from
    ensures r.Some? ==> from <= r.value < |cities| && Contains(query, cities[r.value])
    ensures r.Some? ==> forall j :: from <= j < r.value ==> !Contains(query, cities[j])
    ensures r.None? ==> forall j :: from <= j < |cities| ==> !Contains(query, cities[j])
  {
    if from >= |cities| then None
    else if Contains(query, cities[from]) then Some(from)
    else FirstCityFrom(query, cities, from + 1)
  }

  /** detect_city: the first known city, in list order, that is a substring of the lower-cased query. */
  function DetectCity(query: string): Option<string> {
    match FirstCityFrom(Lower(query), KnownCities, 0)
    case None => None
    case Some(k) => Some(KnownCities[k])
  }

  /** detect_city finds the earliest listed city that occurs, and `None` only when none occurs. */
  lemma DetectCitySpec(query: string)
    ensures DetectCity(query).None? <==>
      forall j :: 0 <= j < |KnownCities| ==> !Contains(Lower(query), KnownCities[j])
    ensures forall k :: 0 <= k < |KnownCities| && Contains(Lower(query), KnownCities[k]) ==>
      ((forall j :: 0 <= j < k ==> !Contains(Lower(query), KnownCities[j])) ==>
        DetectCity(query) == Some(KnownCities[k]))
  {
  }

  // --------------------------------------------------------- recommend_crops

  /** The "temperature" entry of a weather dict. */
  datatype Temperature = Missing | NullTemperature | Celsius(degrees: real)

  /** The crop band chosen by soil pH. */
  function Band(ph: real): seq<string> {
    if 6.0 <= ph <= 7.0 then ["Tomato", "Cabbage", "Spinach"]
    else if 5.0 <= ph < 6.0 then ["Carrot", "Potato"]
    else ["Corn", "Maize"]
  }

  /**
   * recommend_crops. `weather.get("temperature", 25)` defaults only a missing
   * key; a present `None` makes the comparison raise, modelled as `None`.
   */
  function RecommendCrops(temperature: Temperature, ph: real): Option<seq<string>> {
    var band := Band(ph);
    match temperature
    case NullTemperature => None
    case Missing => Some(if 20.0 <= 25.0 <= 30.0 then band else [])
    case Celsius(t) => Some(if 20.0 <= t <= 30.0 then band else [])
  }

  /** Each pH falls in exactly one band: [6, 7], [5, 6), or the rest. */
  lemma BandChoice(ph: real)
    ensures Band(ph) == ["Tomato", "Cabbage", "Spinach"] <==> 6.0 <= ph <= 7.0
    ensures Band(ph) == ["Carrot", "Potato"] <==> 5.0 <= ph < 6.0
    ensures Band(ph) == ["Corn", "Maize"] <==> ph < 5.0 || ph > 7.0
  {
  }

  /**
   * The result is the whole band when the temperature is in [20, 30] (25 when
   * the key is missing), the empty list otherwise: always an order-preserving
   * sublist of the band.
   */
  lemma RecommendCropsSpec(temperature: Temperature, ph: real)
    ensures RecommendCrops(temperature, ph).None? <==> temperature.NullTemperature?
    ensures temperature.Missing? ==> RecommendCrops(temperature, ph) == Some(Band(ph))
    ensures temperature.Celsius? ==>
      RecommendCrops(temperature, ph) ==
        Some(if 20.0 <= temperature.degrees <= 30.0 then Band(ph) else [])
    ensures RecommendCrops(temperature, ph).Some? ==> Subsequence(RecommendCrops(temperature, ph).value, Band(ph))
  {
    SubsequenceOfSelf(Band(ph));
  }

  // ---------------------------------------------------------------- chatbot

  const Greetings: seq<string> := ["hello", "hi", "hey", "good morning", "good afternoon", "good evening"]
  const Topics: seq<string> := ["weather", "soil", "crop"]

  /** Some word of `words` is a substring of `text`. */
  ghost predicate MentionsAny(text: string, words: seq<string>) {
    exists i :: 0 <= i < |words| && Contains(text, words[i])
  }

  /** `any(w in text for w in words)`, scanning the words in order. */
  function AnyIn(text: string, words: seq<string>): bool {
    if words == [] then false else Contains(text, words[0]) || AnyIn(text, words[1..])
  }

  lemma {:induction false} AnyInIff(text: string, words: seq<string>)
    ensures AnyIn(text, words) <==> MentionsAny(text, words)
  {
    if words != [] {
      AnyInIff(text, words[1..]);
      if MentionsAny(text, words) && !Contains(text, words[0]) {
        var i :| 0 <= i < |words| && Contains(text, words[i]);
        assert words[1..][i - 1] == words[i];
      }
      if MentionsAny(text, words[1..]) {
        var i :| 0 <= i < |words[1..]| && Contains(text, words[1..][i]);
        assert words[i + 1] == words[1..][i];
      }
    }
  }

  /**
   * Which answer the chatbot gives. A city report names the city and the crops
   * recommended for it; `ChatbotFailed` is the 500 of recommend_crops raising
   * on a null temperature.
   */
  datatype Intent = Greeting | CityReport(city: string, crops: seq<string>) | ChatbotFailed | CityNotDetected | GeneralHelp

  const CityNotDetectedAnswer: string :=
    "I could not detect the city. Please mention the city name to get accurate weather and crop info."

  /**
   * The routing of chatbot: greetings first, then the three topics, then the
   * fallback. A topic with a city asks the weather lookup, which gives
   * `temperature`, and recommends crops for the fixed soil pH 6.5.
   */
  function ChatbotIntent(query: string, temperature: Temperature): Intent {
    var q := Lower(query);
    if AnyIn(q, Greetings) then Greeting
    else if Contains(q, "weather") || Contains(q, "soil") || Contains(q, "crop") then
      match DetectCity(q)
      case Some(c) =>
        (match RecommendCrops(temperature, FixedPh)
         case None => ChatbotFailed
         case Some(crops) => CityReport(c, crops))
      case None => CityNotDetected
    else GeneralHelp
  }

  /** The routing, stated over the word lists: greeting before topic, topic before fallback. */
  lemma ChatbotIntentSpec(query: string, temperature: Temperature)
    ensures var q := Lower(query);
      var a := ChatbotIntent(query, temperature);
      && (a == Greeting <==> MentionsAny(q, Greetings))
      && (a == CityNotDetected <==>
            !MentionsAny(q, Greetings) && MentionsAny(q, Topics) && DetectCity(query).None?)
      && (a.CityReport? <==>
            !MentionsAny(q, Greetings) && MentionsAny(q, Topics) && DetectCity(query).Some? &&
            !temperature.NullTemperature?)
      && (a == ChatbotFailed <==>
            !MentionsAny(q, Greetings) && MentionsAny(q, Topics) && DetectCity(query).Some? &&
            temperature.NullTemperature?)
      && (a.CityReport? ==> Some(a.city) == DetectCity(query))
      && (a.CityReport? ==>
            a.crops == if temperature.Celsius? && !(20.0 <= temperature.degrees <= 30.0) then []
                       else ["Tomato", "Cabbage", "Spinach"])
      && (a == GeneralHelp <==> !MentionsAny(q, Greetings) && !MentionsAny(q, Topics))
  {
    RecommendCropsSpec(temperature, FixedPh);
    var q := Lower(query);
    AnyInIff(q, Greetings);
    assert MentionsAny(q, Topics) <==> Contains(q, "weather") || Contains(q, "soil") || Contains(q, "crop") by {
      if MentionsAny(q, Topics) {
        var i :| 0 <= i < |Topics| && Contains(q, Topics[i]);
      }
      if Contains(q, "weather") { assert Contains(q, Topics[0]); }
      if Contains(q, "soil") { assert Contains(q, Topics[1]); }
      if Contains(q, "crop") { assert Contains(q, Topics[2]); }
    }
    LowerIdempotent(query);
  }

  /** "hi" is matched as a substring, so "which crop" is taken for a greeting. */
  lemma WhichCropIsGreeting()
    ensures forall temperature :: ChatbotIntent("which crop", temperature) == Greeting
  {
    var q := Lower("which crop");
    assert q == "which crop";
    assert OccursAt(q, "hi", 1);
  }

  // ---------------------------------------------------------------- /weather

  /** get_soil: the fixed soil reading every city gets. */
  const FixedMoisture: real := 35.0
  const FixedPh: real := 6.5

  datatype WeatherReply = CityRequired | WeatherReport(city: string, crops: seq<string>) | WeatherFailed

  /** /weather, given the temperature the weather lookup returns for the city. */
  function WeatherRoute(city: Option<string>, temperature: Temperature): WeatherReply {
    if city.None? || city.value == "" then CityRequired
    else match RecommendCrops(temperature, FixedPh)
      case None => WeatherFailed
      case Some(crops) => WeatherReport(city.value, crops)
  }

  /** /weather answers 400 only for a missing or empty city; with the fixed pH 6.5 it recommends the first band or nothing. */
  lemma WeatherRouteSpec(city: Option<string>, temperature: Temperature)
    ensures WeatherRoute(city, temperature) == CityRequired <==> city.None? || city.value == ""
    ensures WeatherRoute(city, temperature) == WeatherFailed <==>
      city.Some? && city.value != "" && temperature.NullTemperature?
    ensures WeatherRoute(city, temperature).WeatherReport? ==>
      && WeatherRoute(city, temperature).city == city.value
      && (WeatherRoute(city, temperature).crops == ["Tomato", "Cabbage", "Spinach"] ||
          WeatherRoute(city, temperature).crops == [])
  {
    RecommendCropsSpec(temperature, FixedPh);
  }

  // ------------------------------------------------------------------- /soil

  /**
   * A key of a JSON body: not present, present with a value the route cannot
   * use (null, or a value `float()` or `.lower()` rejects, so the handler
   * raises and answers 500), or present with a usable value.
   */
  datatype Field<T> = Absent | Unusable | Given(value: T)

  /** The value of a usable key, or `default` for a missing one. */
  function ValueOr<T>(field: Field<T>, default: T): T {
    if field.Given? then field.value else default
  }

  /** The JSON body of /soil. */
  datatype SoilRequest = SoilRequest(city: Field<string>, moisture: Field<real>, ph: Field<real>)

  /**
   * The JSON reply of /soil (moisture, pH, recommended crops), together with
   * `lookupCity`: the detected city the weather lookup and the query log use, which
   * is not itself part of the reply.
   */
  datatype SoilReply = SoilReply(lookupCity: string, moisture: real, ph: real, crops: seq<string>)

  /**
   * /soil, given the temperature the weather lookup returns; `None` is the 500
   * of a handler that raises: on an unusable key, or in recommend_crops on a
   * null temperature.
   */
  function SoilRoute(req: SoilRequest, temperature: Temperature): Option<SoilReply> {
    if req.city.Unusable? || req.moisture.Unusable? || req.ph.Unusable? then None
    else
      var city := match DetectCity(ValueOr(req.city, "")) case Some(c) => c case None => "unknown";
      var moisture := ValueOr(req.moisture, 35.0);
      var ph := ValueOr(req.ph, 6.5);
      match RecommendCrops(temperature, ph)
      case None => None
      case Some(crops) => Some(SoilReply(city, moisture, ph, crops))
  }

  /**
   * /soil fails exactly on an unusable key or a null temperature; otherwise it
   * falls back to city "unknown", moisture 35 and pH 6.5 for what the body
   * leaves out.
   */
  lemma SoilDefaults(req: SoilRequest, temperature: Temperature)
    ensures SoilRoute(req, temperature).None? <==>
      req.city.Unusable? || req.moisture.Unusable? || req.ph.Unusable? || temperature.NullTemperature?
    ensures SoilRoute(req, temperature).Some? ==>
      var r := SoilRoute(req, temperature).value;
      && (req.city.Absent? ==> r.lookupCity == "unknown")
      && (req.city.Given? && DetectCity(req.city.value).Some? ==> r.lookupCity == DetectCity(req.city.value).value)
      && (req.city.Given? && DetectCity(req.city.value).None? ==> r.lookupCity == "unknown")
      && r.moisture == (if req.moisture.Given? then req.moisture.value else 35.0)
      && r.ph == (if req.ph.Given? then req.ph.value else 6.5)
      && Subsequence(r.crops, Band(r.ph))
  {
    if req.city.Absent? {
      assert DetectCity("").None? by {
        assert forall j :: 0 <= j < |KnownCities| ==> !OccursAt(Lower(""), KnownCities[j], 0);
      }
    }
    RecommendCropsSpec(temperature, ValueOr(req.ph, 6.5));
  }
}
