/** The quote client: the constructor's credential check and the classification of one
    provider response (`StockDataFetcher.__init__` and `fetch_stock_data`). The HTTP request
    itself is an input: the response the provider gave, or the transport failure. */
module Fetch {
  import opened Wrappers
  import opened Json

  const ErrorKey := "Error Message"
  const NoteKey := "Note"
  const SeriesKey := "Time Series (60min)"

  /** A constructed fetcher; it exists only with a non-empty API key. */
  datatype Fetcher = Fetcher(apiKey: string)

  /** The constructor raises `ValueError` when the key is unset or empty. */
  function NewFetcher(apiKey: Option<string>): (r: Outcome<Fetcher>)
    ensures r.Return? <==> apiKey.Some? && apiKey.value != ""
    ensures r.Return? ==> r.value.apiKey == apiKey.value
    ensures r.Raise? ==> r.exc == ValueError
  {
    if apiKey.None? || apiKey.value == "" then Raise(ValueError) else Return(Fetcher(apiKey.value))
  }

  /** The body of a response that arrived: JSON text that decodes, or text that does not. */
  datatype Body = Malformed | Decoded(data: Value)

  /** What the GET request produced: a transport failure (connection error, timeout), or an HTTP status and body. */
  datatype Response = TransportFailure | Http(status: int, body: Body)

  /** Why a fetch returned `None`. */
  datatype FetchFailure = RequestFailed | BadStatus | BadJson | ApiError | RateLimited | NoSeries

  /** `fetch_stock_data`'s result: the symbol with its series, `None` with the reason, or an
      exception the method does not catch (a `TypeError` from testing keys on a non-object document). */
  datatype FetchResult = Fetched(symbol: string, series: Value) | NoData(reason: FetchFailure) | FetchRaised(exc: Exception)

  /** `raise_for_status` raises for client and server errors only. */
  predicate ErrorStatus(status: int) {
    400 <= status < 600
  }

  function FetchStockData(symbol: string, response: Response): (r: FetchResult)
    // the checks, in their order
    ensures response.TransportFailure? ==> r == NoData(RequestFailed)
    ensures response.Http? && ErrorStatus(response.status) ==> r == NoData(BadStatus)
    ensures response.Http? && !ErrorStatus(response.status) && response.body.Malformed? ==> r == NoData(BadJson)
    ensures Carries(response, ErrorKey) ==> r == NoData(ApiError)
    ensures Carries(response, NoteKey) && !Carries(response, ErrorKey) ==> r == NoData(RateLimited)
    ensures (OkDocument(response) && !Carries(response, ErrorKey) && !Carries(response, NoteKey)
             && !Carries(response, SeriesKey)) ==> r == NoData(NoSeries)
    // success: exactly the object documents that carry the series and neither sentinel
    ensures r.Fetched? <==> (Carries(response, SeriesKey) && !Carries(response, ErrorKey) && !Carries(response, NoteKey))
    ensures r.Fetched? ==> r.symbol == symbol
    ensures r.Fetched? ==> exists i | 0 <= i < |response.body.data.fields| :: response.body.data.fields[i] == (SeriesKey, r.series)
    // only a decoded document that is not an object can make the method raise
    ensures r.FetchRaised? ==> response.Http? && response.body.Decoded? && !response.body.data.Object?
    // such a document raises `TypeError`, unless it is a list or a str mentioning none of the three keys
    ensures NonObjectDocument(response) ==>
      var data := response.body.data;
      r == if (data.Array? || data.Str?) && !Mentions(data, ErrorKey) && !Mentions(data, NoteKey) && !Mentions(data, SeriesKey)
           then NoData(NoSeries) else FetchRaised(TypeError)
  {
    match response
    case TransportFailure => NoData(RequestFailed)
    case Http(status, body) =>
      if ErrorStatus(status) then NoData(BadStatus)
      else if body.Malformed? then NoData(BadJson)
      else if body.data.Object? then
        GetFound(body.data.fields, SeriesKey, Null);
        Classify(symbol, body.data)
      else Classify(symbol, body.data)
  }

  /** A successful status whose body decoded to a JSON object. */
  predicate OkDocument(response: Response) {
    response.Http? && !ErrorStatus(response.status) && response.body.Decoded? && response.body.data.Object?
  }

  /** A successful status whose body decoded to something other than a JSON object. */
  predicate NonObjectDocument(response: Response) {
    response.Http? && !ErrorStatus(response.status) && response.body.Decoded? && !response.body.data.Object?
  }

  /** `key in data` holds: a dict key, a list element or a substring. */
  predicate Mentions(data: Value, key: string) {
    Contains(data, key) == Return(true)
  }

  /** The response is an object document holding `key`. */
  predicate Carries(response: Response, key: string) {
    OkDocument(response) && HasKey(response.body.data.fields, key)
  }

  /** The payload checks, in the source's order; `data[SeriesKey]` raises `TypeError` on a list or a str. */
  function Classify(symbol: string, data: Value): FetchResult {
    match Contains(data, ErrorKey)
    case Raise(e) => FetchRaised(e)
    case Return(hasError) =>
      // the log message reads `data['Error Message']`, which raises `TypeError` on a list or a str
      if hasError then (if data.Object? then NoData(ApiError) else FetchRaised(TypeError))
      else
        match Contains(data, NoteKey)
        case Raise(e) => FetchRaised(e)
        case Return(hasNote) =>
          if hasNote then (if data.Object? then NoData(RateLimited) else FetchRaised(TypeError))
          else
            match Contains(data, SeriesKey)
            case Raise(e) => FetchRaised(e)
            case Return(hasSeries) =>
              if !hasSeries then NoData(NoSeries)
              else if !data.Object? then FetchRaised(TypeError)
              else Fetched(symbol, Get(data.fields, SeriesKey, Null))
  }

  /** A payload carrying both sentinels is reported as a provider error, not as a rate limit. */
  lemma ErrorBeatsNote(symbol: string, fields: seq<(string, Value)>)
    requires HasKey(fields, ErrorKey) && HasKey(fields, NoteKey)
    ensures FetchStockData(symbol, Http(200, Decoded(Object(fields)))) == NoData(ApiError)
  {
  }

  /** Only the presence of the series key is checked: an empty series is fetched successfully. */
  lemma EmptySeriesIsFetched(symbol: string)
    ensures FetchStockData(symbol, Http(200, Decoded(Object([(SeriesKey, Object([]))]))))
            == Fetched(symbol, Object([]))
  {
    var fields := [(SeriesKey, Object([]))];
    assert fields[0].0 == SeriesKey;
    assert !HasKey(fields, ErrorKey) && !HasKey(fields, NoteKey);
  }

  /** A list holding the error sentinel passes the `in` test, and then indexing it by a string
      raises `TypeError`, which the method does not catch. */
  lemma SentinelListRaises(symbol: string)
    ensures FetchStockData(symbol, Http(200, Decoded(Array([Str(ErrorKey)])))) == FetchRaised(TypeError)
    ensures FetchStockData(symbol, Http(200, Decoded(Array([Str(NoteKey)])))) == FetchRaised(TypeError)
  {
    assert Str(ErrorKey) in [Str(ErrorKey)];
    assert Str(NoteKey) in [Str(NoteKey)];
  }
}
