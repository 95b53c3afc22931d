/**
 * The /market-prices route of the agri-assistant backend: the renaming of
 * data.gov.in records into the page's rows, and which reply each outcome of
 * the upstream request produces. The request itself is an input.
 */
module MarketPrices {
  import opened Basics

  /** A JSON value of a record field: `null` or a string. */
  datatype Json = Null | Str(s: string)

  /** One upstream record; `None` is a key that is not present. */
  datatype RawRecord = RawRecord(commodity: Option<Json>, state: Option<Json>, market: Option<Json>,
                                 modalPrice: Option<Json>, arrivalDate: Option<Json>)

  /** One row sent to the page. */
  datatype PriceRow = PriceRow(commodity: Json, state: Json, market: Json, price: Json, date: Json)

  /** `item.get(key, default)`: a present key keeps its value, even a JSON null. */
  function Get(field: Option<Json>, default: string): Json {
    field.GetOr(Str(default))
  }

  /** The renaming loop of get_market_prices. */
  method MapRecords(items: seq<RawRecord>) returns (rows: seq<PriceRow>)
    ensures |rows| == |items|
    ensures forall i :: 0 <= i < |items| ==>
      && rows[i].commodity == Get(items[i].commodity, "Unknown")
      && rows[i].state == Get(items[i].state, "Unknown")
      && rows[i].market == Get(items[i].market, "Unknown")
      && rows[i].price == Get(items[i].modalPrice, "N/A")
      && rows[i].date == Get(items[i].arrivalDate, "N/A")
  {
    rows := [];
    for i := 0 to |items|
      invariant |rows| == i
      invariant forall j :: 0 <= j < i ==>
        && rows[j].commodity == Get(items[j].commodity, "Unknown")
        && rows[j].state == Get(items[j].state, "Unknown")
        && rows[j].market == Get(items[j].market, "Unknown")
        && rows[j].price == Get(items[j].modalPrice, "N/A")
        && rows[j].date == Get(items[j].arrivalDate, "N/A")
    {
      var item := items[i];
      rows := rows + [PriceRow(Get(item.commodity, "Unknown"), Get(item.state, "Unknown"),
                               Get(item.market, "Unknown"), Get(item.modalPrice, "N/A"),
                               Get(item.arrivalDate, "N/A"))];
    }
  }

  /** What the upstream request gave. */
  datatype Upstream =
    | Unauthorized               // status 401 or 403
    | RequestFailed              // timeout, connection error, other HTTP error status
    | UnreadableBody             // the body was not JSON
    | Body(records: Option<seq<RawRecord>>)   // `None`: no "records" key

  /** The route's reply. */
  datatype MarketReply =
    | MockRows(rows: seq<PriceRow>)
    | Rows(rows: seq<PriceRow>)
    | NotFound(error: string)
    | ServerError(error: string)

  const NoData: string := "No data found for the selected filters."
  const InternalServerError: string := "Internal server error"

  /** MOCK_DATA_FALLBACK. */
  const MockData: seq<PriceRow> := [
    PriceRow(Str("Wheat"), Str("Punjab"), Str("Ludhiana (Mock Data)"), Str("2250"), Str("2025-10-30")),
    PriceRow(Str("Paddy(Dhan)(Common)"), Str("Haryana"), Str("Karnal (Mock Data)"), Str("3100"), Str("2025-10-30")),
    PriceRow(Str("Cotton"), Str("Gujarat"), Str("Rajkot (Mock Data)"), Str("7500"), Str("2025-10-30")),
    PriceRow(Str("Mustard"), Str("Rajasthan"), Str("Jaipur (Mock Data)"), Str("5800"), Str("2025-10-30"))]

  /**
   * get_market_prices: mock rows without an API key or on a failed request,
   * 404 when no records came back, and otherwise one renamed row per record.
   * A body that is not JSON reaches the catch-all 500 only when the HTTP
   * library's decoding error is not one of its request errors
   * (`jsonErrorIsRequestError` false); when it is, the request-error branch
   * answers with the mock rows.
   */
  method GetMarketPrices(apiKeyConfigured: bool, jsonErrorIsRequestError: bool, upstream: Upstream)
    returns (reply: MarketReply)
    ensures !apiKeyConfigured ==> reply == MockRows(MockData)
    ensures apiKeyConfigured && (upstream.Unauthorized? || upstream.RequestFailed?) ==> reply == MockRows(MockData)
    ensures apiKeyConfigured && upstream.UnreadableBody? ==>
      reply == if jsonErrorIsRequestError then MockRows(MockData) else ServerError(InternalServerError)
    ensures apiKeyConfigured && upstream.Body? && (upstream.records.None? || upstream.records.value == []) ==>
      reply == NotFound(NoData)
    ensures reply.Rows? <==> apiKeyConfigured && upstream.Body? && upstream.records.Some? && upstream.records.value != []
    ensures reply.Rows? ==> |reply.rows| == |upstream.records.value|
    ensures reply.Rows? ==> forall i :: 0 <= i < |reply.rows| ==>
      reply.rows[i].price == Get(upstream.records.value[i].modalPrice, "N/A") &&
      reply.rows[i].date == Get(upstream.records.value[i].arrivalDate, "N/A") &&
      reply.rows[i].commodity == Get(upstream.records.value[i].commodity, "Unknown") &&
      reply.rows[i].state == Get(upstream.records.value[i].state, "Unknown") &&
      reply.rows[i].market == Get(upstream.records.value[i].market, "Unknown")
  {
    if !apiKeyConfigured {
      return MockRows(MockData);
    }
    match upstream
    case Unauthorized => reply := MockRows(MockData);
    case RequestFailed => reply := MockRows(MockData);
    case UnreadableBody =>
      reply := if jsonErrorIsRequestError then MockRows(MockData) else ServerError(InternalServerError);
    case Body(records) =>
      if records.None? || records.value == [] {
        reply := NotFound(NoData);
      } else {
        var rows := MapRecords(records.value);
        reply := Rows(rows);
      }
  }

  /** A present field is copied as it is (null included); a missing one gets the default. */
  lemma GetKeepsPresent(field: Option<Json>, default: string)
    ensures field.Some? ==> Get(field, default) == field.value
    ensures field.None? ==> Get(field, default) == Str(default)
  {
  }
}
