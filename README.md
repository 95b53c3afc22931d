# Krishi-Mithra agri-assistant: the rule core in Dafny

This project models the small, self-contained rules of the Krishi-Mithra farming
assistant and proves what they promise. The rules come from its Flask backends
and its React pages:

- the soil-fertility threshold classifier and the fertilizer-mass calculation,
  with the input check of the `/calculate-fertilizer` route;
- the per-day aggregation of the five-day weather forecast;
- the "split at the first separator, else fall back" rule for the AI answers;
- the field renaming of the market-price records;
- the older rule backend: city detection, the pH-band crop recommender, the
  chatbot intent router, and the `/weather` and `/soil` routes;
- client-side logic:
  - the crop suitability score and its colour bands;
  - the soil page's level colours, chart data, overall colour and low-nutrient alerts;
  - the schemes table with its derived categories and the category filter;
  - the dashboard's bullet lists, post deletion, no-token branch and AI-content defaults;
  - the add-product tag parser and form reset;
  - the marketplace response normalisation;
- the state holders: the navbar's single open dropdown, the `"token"` entry of
  `localStorage` (`utils/auth.js`) and the `AuthProvider` context.

Each source file is one module:

| Dafny module | file | source |
|---|---|---|
| `Basics` | basics.dfy | shared `Option`, `Min`, real min/max/abs, `Subsequence`, `Distinct` |
| `Text` | text.dfy | the string built-ins the rules use: lower-casing, strip, split on a character, join, substring search, lexicographic order, insertion sort |
| `Fertility` | fertility.dfy | `analyze_fertility`, `get_fertilizer_recommendation`, `calculate_fertilizer` (agri-assistant/backend/app.py) |
| `Forecast` | forecast.dfy | the aggregation in `get_5_day_forecast` |
| `AiSections` | ai_sections.dfy | the separator splits in `identify_pest` and `detailed_recommendation` |
| `MarketPrices` | market.dfy | `get_market_prices` |
| `LegacyBackend` | legacy_backend.dfy | backend/app.py |
| `CropRecommender` | crop_recommender.dfy | CropRecommender.jsx |
| `SoilFertilityView` | soil_fertility_view.dfy | SoilFertility.jsx |
| `Schemes` | schemes.dfy | schemesData.js |
| `GovSchemes` | gov_schemes.dfy | GovSchemes.jsx |
| `Dashboard` | dashboard.dfy | Dashboard.jsx |
| `AddProduct` | add_product.dfy | AddProduct.jsx |
| `Marketplace` | marketplace.dfy | Marketplace.js |
| `Navbar` | navbar.dfy | Navbar.jsx |
| `Storage` | storage.dfy | the browser's `localStorage` (a string map that coerces the values it stores) |
| `TokenStore` | token_store.dfy | frontend/src/utils/auth.js |
| `AuthContext` | auth_context.dfy | AuthContext.js |

The rules' own form is kept:

- **Loops become methods proved against a function.** The loops that fill a
  dict or list are Dafny methods:
  - `AnalyzeFertility` against `Levels` and `Recommendations`;
  - `GroupByDay` against `Aggregate`;
  - `FiveDaySummary` against `Sort`;
  - `MapRecords`.
- **Component state becomes classes.** React components with state
  (`RecommenderForm`, `SoilForm`, `DashboardPage`, `ProductForm`,
  `MarketplacePage`, `SchemeBrowser`, `NavbarState`, `AuthProvider`) are classes
  whose methods end in the state the handler leaves.
- **External results are parameters.** Results of HTTP, database and AI calls
  are method parameters.
- **Python dict order is explicit.** A Python dict whose insertion order matters
  (the forecast table) is a key sequence plus a map.
- **Numbers are `real`.** Numbers are `real` and no rounding is applied.

## Model

| member | source | states |
|---|---|---|
| Fertility.Levels | agri-assistant/backend/app.py:233-242 | the levels dict has exactly the keys ph_level, n_level, p_level, k_level; each is the flagged label (Acidic / Low) exactly when the value is strictly below its threshold (pH 5.5, N 100, P 20, K 100), otherwise Neutral / Medium |
| Fertility.AnalyzeFertility | agri-assistant/backend/app.py:233-243 | the method filling `levels` and appending to `recommendations` ends with the levels map and the recommendation list of the specification functions |
| Fertility.RecommendationsUnfolded | agri-assistant/backend/app.py:235-242 | the recommendation list is lime, then nitrogen, then phosphorus, then potassium advice, each present only when that level is flagged |
| Fertility.AdviceForIff | agri-assistant/backend/app.py:235-242 | an advice line is emitted exactly when its nutrient is checked and flagged |
| Fertility.AdviceForOrdered | agri-assistant/backend/app.py:235-242 | advice lines follow the order in which the nutrients are checked |
| Fertility.AnalyzeFertilityReport | agri-assistant/backend/app.py:233-243 | four keys always; one advice line per flagged level and none otherwise; lines in pH, N, P, K order |
| Fertility.BoundaryNotFlagged | agri-assistant/backend/app.py:235-242 | pH 5.5, N 100, P 20, K 100 give Neutral / Medium / Medium / Medium and no recommendation |
| Fertility.CropTarget | agri-assistant/backend/app.py:246-250 | a target exists exactly for the six crops of the table |
| Fertility.Gap | agri-assistant/backend/app.py:259-261 | a gap is non-negative, is zero exactly when the soil meets the target, and otherwise closes the distance to the target |
| Fertility.CropLookup | agri-assistant/backend/app.py:255-257 | the crop lookup ignores case; amounts come back exactly for a known crop, otherwise only the "Crop not found" error |
| Fertility.PlanBalances | agri-assistant/backend/app.py:263-267 | all three masses are non-negative; MOP×0.60 equals the K gap and DAP×0.46 equals the P gap; urea×0.46 + DAP×0.18 covers the N gap; urea is zero when DAP's nitrogen covers the N gap |
| Fertility.GapsMeetTargets | agri-assistant/backend/app.py:255-261 | for a known crop, each of the N, P and K gaps is zero exactly when the soil already meets that target of the crop |
| Fertility.CalculateFertilizerStatus | agri-assistant/backend/app.py:279-293 | a missing or unparsable n/p/k gives 500; a zero n/p/k or an empty or missing crop gives 400; an unknown crop gives 404; otherwise 200 with the recommendation |
| Forecast.OnDateMembers | agri-assistant/backend/app.py:318-320 | the entries grouped under a date are exactly the entries with that date |
| Forecast.Descriptions | agri-assistant/backend/app.py:324-329 | the conditions list holds every entry's description, in order |
| Forecast.LowestMin | agri-assistant/backend/app.py:323-327 | the minimum is at most every entry's `temp_min` and is one of them |
| Forecast.HighestMax | agri-assistant/backend/app.py:323-328 | the maximum is at least every entry's `temp_max` and is one of them |
| Forecast.AggregateValid | agri-assistant/backend/app.py:317-329 | the dict keys are listed once each, in insertion order |
| Forecast.AggregateKeys | agri-assistant/backend/app.py:320-321 | a date is a key exactly when some entry has that date |
| Forecast.AggregateDay | agri-assistant/backend/app.py:320-329 | each day keeps the day name and icon of its first entry, the min of temp_min, the max of temp_max and all its conditions in order |
| Forecast.GroupByDay | agri-assistant/backend/app.py:317-329 | the grouping loop builds exactly the aggregated dict |
| Forecast.MostCommonOf | agri-assistant/backend/app.py:333 | the chosen condition is a candidate, and no candidate occurs more often |
| Forecast.MostCommon | agri-assistant/backend/app.py:333 | the most common condition is one of the conditions, and no condition occurs more often |
| Forecast.DistinctCounts | agri-assistant/backend/app.py:331 | a list of distinct keys counts each value at most once |
| Forecast.CountsDistinct | agri-assistant/backend/app.py:331 | a list counting each value at most once has distinct elements |
| Forecast.SortedKeys | agri-assistant/backend/app.py:331 | `sorted(keys)` is strictly ascending and holds exactly the keys |
| Forecast.SortedPrefix | agri-assistant/backend/app.py:331 | the first n sorted keys are ascending and below every key left out |
| Forecast.SummariseDates | agri-assistant/backend/app.py:331-338 | the output loop emits one element per chosen date, in order, built from that date's summary |
| Forecast.FiveDaySummary | agri-assistant/backend/app.py:330-338 | min(5, days) elements, ascending distinct dates, each earlier than every date left out |
| Forecast.DatesOf | agri-assistant/backend/app.py:335 | the dates of the output, in order |
| Forecast.FiveDayForecast | agri-assistant/backend/app.py:317-338 | at most 5 days, in ascending date order, each earlier than every date left out, with the aggregated min, max, day name, icon and a most common condition |
| AiSections.SplitOnce | agri-assistant/backend/app.py:414-415 | a split exists exactly when the separator occurs; the halves rebuild the text around the separator's first occurrence |
| AiSections.SplitOnceAtFirst | agri-assistant/backend/app.py:415 | splitting with maxsplit 1 cuts at the first occurrence of the separator |
| AiSections.PestSectionsSpec | agri-assistant/backend/app.py:414-420 | with the separator present, identification and treatment are the halves around its first occurrence, stripped of Python whitespace (which includes U+001C to U+001F); without it, identification is the whole text and treatment the fixed fallback |
| AiSections.RecommendationSectionsSpec | agri-assistant/backend/app.py:559-565 | with the separator present, crops and analysis are the halves stripped of Python whitespace; without it, crops is the fixed fallback and analysis is the fixed prefix followed by the whole text |
| AiSections.PestSectionsStripsSeparators | agri-assistant/backend/app.py:414-420 | a leading U+001C before the separator is stripped: the identification of "\x1cA---TREATMENT---B" is "A" and the treatment "B" |
| AiSections.StripSeparatorControl | agri-assistant/backend/app.py:416-417 | Python's `strip` removes a leading U+001C |
| Dashboard.TrimKeepsSeparatorControl | agri-assistant/frontend/src/pages/Dashboard.jsx:22 | JavaScript's `trim` keeps a leading U+001C |
| MarketPrices.MapRecords | agri-assistant/backend/app.py:490-498 | one row per record, in order; each field is taken from its source field, or from "Unknown" / "N/A" when that field is absent |
| MarketPrices.GetMarketPrices | agri-assistant/backend/app.py:441-521 | no API key, 401/403 or a failed request give the mock rows; missing or empty records give the 404 error; otherwise one row per record whose commodity, state, market, price and date are the record's fields with their `get` defaults; an unreadable body gives the mock rows or 500, depending on the HTTP library's exception hierarchy |
| MarketPrices.GetKeepsPresent | agri-assistant/backend/app.py:493-497 | `dict.get` returns a present field unchanged and the default only when the field is absent |
| LegacyBackend.FirstCityFrom | backend/app.py:76-79 | the search returns the first city in list order, from a position on, that occurs in the query |
| LegacyBackend.DetectCitySpec | backend/app.py:71-79 | None exactly when no known city occurs in the lower-cased query; otherwise the first known city, in list order, that occurs |
| LegacyBackend.BandChoice | backend/app.py:98-103 | 6≤pH≤7 gives Tomato/Cabbage/Spinach, 5≤pH<6 gives Carrot/Potato, anything else gives Corn/Maize |
| LegacyBackend.RecommendCropsSpec | backend/app.py:94-105 | an absent temperature defaults to 25 and keeps the whole band; a temperature in [20,30] keeps the band and any other gives []; a null temperature has no result; the result is always an order-preserving sublist of the band |
| LegacyBackend.AnyInIff | backend/app.py:171 | `any(g in q for g in greetings)` holds exactly when some greeting is a substring of the query |
| LegacyBackend.ChatbotIntentSpec | backend/app.py:163-192 | greetings are checked first; then a weather/soil/crop keyword with a detected city leads to the city report, whose crops are the pH 6.5 band or none by the [20, 30] temperature test, or to the 500 failure when the weather lookup gives a null temperature; with no city, the "could not detect the city" answer; otherwise the general fallback |
| LegacyBackend.WhichCropIsGreeting | backend/app.py:169-172 | "which crop" gets the greeting reply, whatever the weather, because it contains "hi" |
| LegacyBackend.WeatherRouteSpec | backend/app.py:135-145 | exactly a missing or empty city gives the 400 "City is required" reply; a null temperature makes the route fail; otherwise the reply names the city and, with the fixed pH 6.5, recommends Tomato/Cabbage/Spinach or nothing |
| LegacyBackend.SoilDefaults | backend/app.py:148-159 | the route fails (500) exactly when the city, moisture or pH key is null or unusable, or the weather lookup gives a null temperature; otherwise the city passed to the weather lookup is "unknown" when none is detected, moisture defaults to 35 and pH to 6.5 for absent keys, and the crops are an order-preserving sublist of the pH band |
| CropRecommender.RecommenderForm.constructor | agri-assistant/frontend/src/components/CropRecommender.jsx:9-17 | all inputs and results start empty and loading is off |
| CropRecommender.RecommenderForm.GetRecommendations | agri-assistant/frontend/src/components/CropRecommender.jsx:24-52 | results and error are cleared; the request is sent exactly when all five fields are filled; otherwise "Please fill in all 5 fields."; the server's error or "Error connecting to the server." on failure; loading ends on every path |
| CropRecommender.IdealFor | agri-assistant/frontend/src/components/CropRecommender.jsx:192-202 | an entry exists exactly for the nine listed crops, and every listed range has lo < hi |
| CropRecommender.LookupKey | agri-assistant/frontend/src/components/CropRecommender.jsx:204 | the key is the lower-cased name up to its first space, and holds no space |
| CropRecommender.IdealOf | agri-assistant/frontend/src/components/CropRecommender.jsx:204-205 | the table entry for a listed key, otherwise temp [20,35] and rain [400,1200]; both ranges always have lo < hi |
| CropRecommender.DeviationNonNegative | agri-assistant/frontend/src/components/CropRecommender.jsx:210-211 | the scaled distance from the midpoint is non-negative |
| CropRecommender.ScoresBounded | agri-assistant/frontend/src/components/CropRecommender.jsx:213-215 | temperature and rain scores lie in [0,100]; suitability lies in [30,100] |
| CropRecommender.MidpointsScoreFull | agri-assistant/frontend/src/components/CropRecommender.jsx:207-215 | inputs at both midpoints score 100 |
| CropRecommender.TempScoreByDistance | agri-assistant/frontend/src/components/CropRecommender.jsx:210-213 | a temperature closer to the midpoint never scores lower |
| CropRecommender.RainScoreByDistance | agri-assistant/frontend/src/components/CropRecommender.jsx:211-214 | a rainfall closer to the midpoint never scores lower |
| CropRecommender.TempScoreZero | agri-assistant/frontend/src/components/CropRecommender.jsx:210-213 | the temperature score is 0 exactly when the deviation is at least 5/3 half-widths |
| CropRecommender.ColorBands | agri-assistant/frontend/src/components/CropRecommender.jsx:217-218 | red exactly below 50, amber exactly from 50 to below 70, green exactly from 70 |
| SoilFertilityView.FailureText | agri-assistant/frontend/src/components/SoilFertility.jsx:57 | the server's error first, then the thrown message, then "Error analyzing soil." |
| SoilFertilityView.SoilForm.constructor | agri-assistant/frontend/src/components/SoilFertility.jsx:25-34 | empty inputs, no data, no error, not loading |
| SoilFertilityView.SoilForm.Analyze | agri-assistant/frontend/src/components/SoilFertility.jsx:36-61 | prior data and error are cleared; the request is sent exactly when all six fields are filled; otherwise the fill-in error; on success the analysis is stored; loading ends on every path |
| SoilFertilityView.LevelColorSpec | agri-assistant/frontend/src/components/SoilFertility.jsx:64-75 | case-insensitive: low is red, medium orange, high green; anything else, including undefined, is the default green |
| SoilFertilityView.ChartData | agri-assistant/frontend/src/components/SoilFertility.jsx:78-116 | exactly five items, in the order N, P, K, pH, Organic Matter, each with its level and that level's colour; organic matter is always "medium" with the default green |
| SoilFertilityView.OverallColor | agri-assistant/frontend/src/components/SoilFertility.jsx:119-125 | red exactly when some level is "Low"; orange exactly when none is "Low" and some is "Medium"; green otherwise |
| SoilFertilityView.Alerts | agri-assistant/frontend/src/components/SoilFertility.jsx:247-248 | defined exactly when every item has a level; then each item whose level lower-cases to "low" occurs as often as in the input, no other item occurs, and the order is kept |
| SoilFertilityView.LowItems | agri-assistant/frontend/src/components/SoilFertility.jsx:247-248 | the low items, each as often as in the input and no other, in order |
| SoilFertilityView.AlertsMembers | agri-assistant/frontend/src/components/SoilFertility.jsx:247-248 | every alert is low and every low item is alerted |
| SoilFertilityView.OverallColorOfBackendLevels | agri-assistant/frontend/src/components/SoilFertility.jsx:119-125 | on the backend's levels: red exactly when N<100, P<20 or K<100, orange otherwise, never green |
| SoilFertilityView.BackendLabelsLowness | agri-assistant/backend/app.py:235-242 | of the backend's labels, only "Low" lower-cases to "low"; Acidic, Neutral and Medium do not |
| SoilFertilityView.AlertsNames | agri-assistant/frontend/src/components/SoilFertility.jsx:247-248 | the names of the alerts are the names of the low items, in order |
| SoilFertilityView.LowItemsNames | agri-assistant/frontend/src/components/SoilFertility.jsx:247-249 | the names of the low items are the nutrient names of the low items, in order |
| SoilFertilityView.AlertsOfFive | agri-assistant/frontend/src/components/SoilFertility.jsx:247-248 | on the five chart items, the alerts are the low ones among N, P, K, pH and Organic Matter, in that order |
| SoilFertilityView.BackendItems | agri-assistant/frontend/src/components/SoilFertility.jsx:78-116 | the chart items built from the backend's levels carry those labels, organic matter "medium" |
| SoilFertilityView.AlertsOfBackendLevels | agri-assistant/frontend/src/components/SoilFertility.jsx:247-248 | with the backend's levels the alerts are Nitrogen, Phosphorus, Potassium when N<100, P<20, K<100; pH and organic matter never alert |
| SoilFertilityView.NamesAppend | agri-assistant/frontend/src/components/SoilFertility.jsx:247-249 | the names of concatenated lists are the concatenated names |
| Schemes.CategoriesOf | agri-assistant/frontend/src/data/schemesData.js:82 | `schemes.map(s => s.category)`: one category per scheme, in order |
| Schemes.Unique | agri-assistant/frontend/src/data/schemesData.js:82 | the spread of a Set: distinct values, exactly the values of the input not already seen, and any two in the order of their first occurrences in the input |
| Schemes.Categories | agri-assistant/frontend/src/data/schemesData.js:80-83 | 'All' first, then every scheme's category, each once, ordered by first occurrence in the table |
| Schemes.UniqueOfDistinct | agri-assistant/frontend/src/data/schemesData.js:82 | a Set of distinct values keeps them all, in order |
| Schemes.UniqueOfDistinctFrom | agri-assistant/frontend/src/data/schemesData.js:82 | a Set of distinct values not yet seen keeps them all, in order |
| Schemes.IdsUnique | agri-assistant/frontend/src/data/schemesData.js:4-77 | the ids are 1..8, in order, and unique |
| Schemes.CategoriesOfTable | agri-assistant/frontend/src/data/schemesData.js:4-77 | the table's categories, scheme by scheme |
| Schemes.TableCategoriesDistinct | agri-assistant/frontend/src/data/schemesData.js:4-77 | the eight schemes' categories are distinct and none is 'All' |
| Schemes.CategoriesValue | agri-assistant/frontend/src/data/schemesData.js:80-83 | `categories` is 'All' followed by the eight categories in table order, with no duplicates |
| GovSchemes.InCategory | agri-assistant/frontend/src/components/GovSchemes.jsx:11 | each scheme of that category occurs as often as in the input, no other scheme occurs, and the order is kept |
| GovSchemes.InCategoryMembers | agri-assistant/frontend/src/components/GovSchemes.jsx:11 | every shown scheme has the category and every scheme of the category is shown |
| GovSchemes.SchemeBrowser.constructor | agri-assistant/frontend/src/components/GovSchemes.jsx:6 | the initial category is 'All' |
| GovSchemes.SchemeBrowser.Select | agri-assistant/frontend/src/components/GovSchemes.jsx:24 | a click sets the active category to exactly that category |
| GovSchemes.SchemeBrowser.Shown | agri-assistant/frontend/src/components/GovSchemes.jsx:9-11 | 'All' shows the schemes unchanged; any other category shows the schemes of that category |
| GovSchemes.InCategoryNonEmpty | agri-assistant/frontend/src/components/GovSchemes.jsx:11 | filtering on a category shows something exactly when some scheme has it |
| GovSchemes.ButtonsShowSchemes | agri-assistant/frontend/src/components/GovSchemes.jsx:9-24 | filtering the table on a category shows a scheme exactly when that category is one of the buttons after 'All' |
| GovSchemes.SubsequenceMembers | agri-assistant/frontend/src/components/GovSchemes.jsx:11 | everything the filter returns is in the input |
| Dashboard.RenderList | agri-assistant/frontend/src/pages/Dashboard.jsx:18-23 | null exactly for absent or empty text; otherwise one entry per '*'-separated segment, in order |
| Dashboard.EntrySpec | agri-assistant/frontend/src/pages/Dashboard.jsx:22 | a whitespace-only segment becomes the blank placeholder; any other segment becomes its trimmed text |
| Dashboard.EntryOfSegment | agri-assistant/frontend/src/pages/Dashboard.jsx:22 | any segment renders blank exactly when it is all JavaScript whitespace, otherwise as its non-empty trimmed text |
| Dashboard.SegmentsCoverText | agri-assistant/frontend/src/pages/Dashboard.jsx:21 | the segments rejoined with '*' are the text |
| Dashboard.WithoutPost | agri-assistant/frontend/src/pages/Dashboard.jsx:30 | every post with another id occurs as often as before, no post with that id remains, and the order is kept |
| Dashboard.WithoutPostMembers | agri-assistant/frontend/src/pages/Dashboard.jsx:30 | no kept post has the id, and every post with another id is kept |
| Dashboard.WithoutPostNoMatch | agri-assistant/frontend/src/pages/Dashboard.jsx:30 | deleting an id that no post has leaves the list unchanged |
| Dashboard.OrDefault | agri-assistant/frontend/src/pages/Dashboard.jsx:85-86 | a non-empty value is kept; a missing or empty one becomes the default |
| Dashboard.DashboardPage.constructor | agri-assistant/frontend/src/pages/Dashboard.jsx:8-13 | no data, empty AI content, no posts, both loaders on, no error |
| Dashboard.DashboardPage.LoadAllData | agri-assistant/frontend/src/pages/Dashboard.jsx:37-71 | without a token: "You are not logged in.", loading off, navigation to /login, no fetch; with one: the fetched data, its error or the load error, and the posts; loading ends |
| Dashboard.DashboardPage.FetchAiContent | agri-assistant/frontend/src/pages/Dashboard.jsx:77-96 | nothing happens without a token; with one, missing advice or news becomes "No advice available." / "No news available.", and AI loading ends |
| Dashboard.DashboardPage.Delete | agri-assistant/frontend/src/pages/Dashboard.jsx:25-34 | a successful delete removes that id's posts; a failed one leaves the list unchanged; nothing else changes |
| Dashboard.DashboardPage.View | agri-assistant/frontend/src/pages/Dashboard.jsx:98-105 | the loader while loading; the error box with the error when there is a non-empty error and no user; "Could not load dashboard data." when there is no data and no error; otherwise the page |
| Dashboard.NoTokenShowsLoginError | agri-assistant/frontend/src/pages/Dashboard.jsx:62-101 | after the no-token branch the page shows "You are not logged in." |
| AddProduct.ParseTags | agri-assistant/frontend/src/pages/AddProduct.jsx:37 | one tag per comma plus one, each the trimmed, lower-cased piece |
| AddProduct.TagIsNormal | agri-assistant/frontend/src/pages/AddProduct.jsx:37 | a piece without commas becomes a tag with no surrounding space, no comma and no upper-case letter |
| AddProduct.ParsedTagsAreNormal | agri-assistant/frontend/src/pages/AddProduct.jsx:37 | every parsed tag is trimmed, lower-case and comma-free; the empty string parses to [""] |
| AddProduct.NormalTagFixed | agri-assistant/frontend/src/pages/AddProduct.jsx:37 | a tag that is already normal is unchanged by trimming and lower-casing |
| AddProduct.ParseTagsIdempotent | agri-assistant/frontend/src/pages/AddProduct.jsx:37 | parsing the comma-joined tags gives the same tags |
| AddProduct.ParseNormalTags | agri-assistant/frontend/src/pages/AddProduct.jsx:37 | a non-empty list of tags that are already trimmed, lower-case and comma-free (empty ones included), joined with commas, parses back to exactly that list |
| AddProduct.ProductOf | agri-assistant/frontend/src/pages/AddProduct.jsx:39-48 | the posted product carries the form's name, brand, category, description, image URL and stock, the parsed price given to it, and the parsed tags |
| AddProduct.ProductForm.constructor | agri-assistant/frontend/src/pages/AddProduct.jsx:8-19 | empty fields, category 'fertilizer', stock 100, no message or error, not loading |
| AddProduct.ProductForm.Submit | agri-assistant/frontend/src/pages/AddProduct.jsx:29-73 | the product sent is built from the form and the parsed price; on success the success message is shown and the form resets to 'fertilizer', stock 100 and empty fields; on failure the server's error or "Could not add product." is shown and the fields stay; loading ends |
| Marketplace.Normalised | agri-assistant/frontend/src/pages/Marketplace.js:17-23 | an array is taken as is; otherwise a truthy `products` list is taken; any other shape is rejected |
| Marketplace.MarketplacePage.constructor | agri-assistant/frontend/src/pages/Marketplace.js:7-9 | no products, loading on, no error |
| Marketplace.MarketplacePage.FetchProducts | agri-assistant/frontend/src/pages/Marketplace.js:12-30 | an accepted shape replaces the products and clears the error; any other shape keeps the products and sets the fixed error; loading ends |
| Marketplace.EmptyListingAccepted | agri-assistant/frontend/src/pages/Marketplace.js:19-20 | an empty `products` array is truthy in JavaScript and is accepted |
| Storage.Coerce | frontend/src/utils/auth.js:7 | `setItem` stores a string unchanged, null as "null" and undefined as "undefined" |
| Storage.LocalStorage.constructor | frontend/src/utils/auth.js:2 | the store starts with the given entries |
| Storage.LocalStorage.GetItem | frontend/src/utils/auth.js:2 | a stored key gives its value and any other key gives null |
| Storage.LocalStorage.SetItem | frontend/src/utils/auth.js:7 | only the key set changes, to the coerced value |
| Storage.LocalStorage.RemoveItem | frontend/src/utils/auth.js:11 | only the key removed changes |
| TokenStore.TokenIn | frontend/src/utils/auth.js:2-3 | a token exactly when the "token" entry exists and is neither empty nor "undefined", and then that entry |
| TokenStore.SetToken | frontend/src/utils/auth.js:6-8 | the "token" entry becomes the coerced token; nothing else changes |
| TokenStore.RemoveToken | frontend/src/utils/auth.js:10-12 | the "token" entry is removed; nothing else changes |
| TokenStore.SetThenGet | frontend/src/utils/auth.js:2-8 | after setToken(t), getToken gives t when t is non-empty and not "undefined"; setToken(null) is stored as "null" and reads back as that string; undefined, "" and "undefined" read back as null |
| TokenStore.RemoveThenGet | frontend/src/utils/auth.js:2-12 | after removeToken, getToken gives null |
| TokenStore.OnlyTokenKeyChanges | frontend/src/utils/auth.js:7-11 | setting or removing the token leaves every other key as it was |
| AuthContext.Adopted | agri-assistant/frontend/src/context/AuthContext.js:11-16 | the stored token is adopted exactly when it is present and non-empty; otherwise the token is unchanged |
| AuthContext.AuthProvider.constructor | agri-assistant/frontend/src/context/AuthContext.js:8 | the token starts null |
| AuthContext.AuthProvider.Mount | agri-assistant/frontend/src/context/AuthContext.js:11-16 | on mount the token adopts a truthy stored value |
| AuthContext.AuthProvider.Login | agri-assistant/frontend/src/context/AuthContext.js:19-22 | the token and the stored "token" both become the new token |
| AuthContext.AuthProvider.Logout | agri-assistant/frontend/src/context/AuthContext.js:25-28 | the token becomes null and the stored "token" is removed |
| AuthContext.AuthProvider.LoginThenLogout | agri-assistant/frontend/src/context/AuthContext.js:19-28 | after login then logout, both the memory and the store are empty |
| AuthContext.ReloadAfterLogin | agri-assistant/frontend/src/context/AuthContext.js:11-22 | a reload after login(t) with a non-empty t adopts t; login(undefined) is adopted as the string "undefined"; a reload after logout adopts nothing |
| Navbar.NavbarState.constructor | agri-assistant/frontend/src/components/Navbar.jsx:7 | no dropdown is open initially |
| Navbar.NavbarState.Toggle | agri-assistant/frontend/src/components/Navbar.jsx:9-11 | toggling the open menu closes it; toggling any other menu opens exactly that one |
| Navbar.NavbarState.LinkClicked | agri-assistant/frontend/src/components/Navbar.jsx:14-16 | a link click closes the dropdown |
| Navbar.AtMostOneVisible | agri-assistant/frontend/src/components/Navbar.jsx:70-129 | two visible dropdowns are the same dropdown |
| Navbar.OpenServicesThenFeatures | agri-assistant/frontend/src/components/Navbar.jsx:9-129 | opening Services and then Features leaves Features visible and Services hidden |

## Left out

- Lower-casing and `strip`/`trim` are over ASCII only. Python's and JavaScript's Unicode case mapping and non-ASCII whitespace are not modelled. The ASCII whitespace differs by language and is modelled: Python's `strip` also removes U+001C to U+001F, JavaScript's `trim` does not.
- Numeric formatting is left out: `round(..., 2)` of the fertilizer masses, `round()` of forecast temperatures, `.title()` of the condition and the crop, `toFixed`, and the wind speed ×3.6. Amounts are exact `real`s.
- The fertilizer recommendation sentences (agri-assistant/backend/app.py:271-274) are not modelled. They are f-string formatting of the gaps.
- The route handlers around the rules are not modelled. This covers the image, crop and model-configured checks of `identify_pest` and `detailed_recommendation`, and the `/analyze-fertility` wrapper. Only the rules they call are modelled.
- External services are not modelled: MySQL (`get_db_connection`, `save_query_to_db`), Gemini `generate_content`, the OpenWeather and data.gov.in requests, every axios call, bcrypt and JWT, and the Bearer header split. Their results are parameters of the methods.
- `datetime.fromtimestamp` and the local timezone are not modelled. Each forecast entry carries its date and day name as given strings.
- Forecast.MostCommon: which of several equally common conditions wins depends on set iteration order. The contract promises only some condition of maximal count.
- MarketPrices.GetMarketPrices: whether an unreadable JSON body is caught as a `RequestException` (mock data) or by the catch-all (500) depends on the installed version of the HTTP library. It is the parameter `jsonErrorIsRequestError`. The request timeout, HTTP errors other than 401/403 and connection errors are one `RequestFailed` case, since all give the mock data.
- String-to-number conversion is not modelled. This covers `float()` in the Python routes and `parseFloat`/`parseInt`/`|| 0` in the pages. Parsed values are inputs. What stands for a value that cannot be used differs by place: in /calculate-fertilizer `None` is a missing or null key, on which `float()` raises (500); in /soil a key is `Absent` (the default applies), `Unusable` (null or rejected by `float()` or `.lower()`, so the route raises: 500) or `Given`; in the pages `None` is a value `parseFloat` gives NaN for, and in the posted product that NaN is sent as null.
- The Unicode and emoji regular expression that extracts crop names (agri-assistant/frontend/src/components/CropRecommender.jsx:178-190) is not modelled. The scoring takes the extracted name as input.
- CropRecommender.IdealOf: keys that name inherited JavaScript object properties (such as "constructor") are treated as unlisted crops.
- The descriptive texts, eligibility and links of the schemes table are not modelled. Only ids, titles and categories are.
- React batches state updates. Only the state at the end of each handler is modelled, not intermediate renders such as `setIsLoading(true)`.
- LegacyBackend.ChatbotIntent: a `query` key that is null or not a string makes `.lower()` raise (500). The model takes the query as text, a missing key being "".
- The chatbot's answer texts, with their emoji and the weather sentence, are not modelled. The router returns which answer is given and, for a city report, the city and the recommended crops.
- Marketplace.Normalised: a truthy `products` value that is not an array is not modelled. `products` is either a list or absent.
- SoilFertilityView.Alerts: a chart item whose level is undefined makes the page's `.toLowerCase()` throw. The model returns `None` for that case.
- The chat and speech components, the presentation-only pages, the ML training script, `soil_analysis.py` and `config.py` hold no rule logic and are not part of this model.
- The defects in code outside the modelled rules are not modelled: the missing `MYSQL_CONFIG` import, `datetime.timedelta` and the `Signup.jsx` calls.
