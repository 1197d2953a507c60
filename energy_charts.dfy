/**
 * The Energy Charts parser: it builds the query of `fetch_generation`,
 * hands it to the transport and turns the reply into a table.
 */
module EnergyCharts {
  import opened Wrappers
  import opened Errors
  import opened Registry
  import opened Dates
  import opened Responses
  import opened Columns
  import opened Normaliser
  import opened Frames

  /** The country a new parser starts out with. */
  const DefaultCountry: string := "Germany"
  /** The time zone a new parser records; nothing in the core reads it. */
  const DefaultTimeZone: string := "Europe/Brussels"

  /** One call of the transport: the end point path and the query parameters. */
  datatype Request = Request(endPoint: string, params: map<string, string>)

  /**
   * The request of `fetch_generation`: the generation end point, the
   * country's code and both dates formatted as `YYYY-MM-DD`. The start date
   * is formatted first, so its error wins over the end date's.
   */
  function GenerationRequest(country: Country, start: DateInput, end: DateInput): (r: Result<Request, Error>)
    requires start.Stamp? ==> ValidDate(start.stamp)
    requires end.Stamp? ==> ValidDate(end.stamp)
    ensures r.Success? <==> FormatDate(start).Success? && FormatDate(end).Success?
    ensures FormatDate(start).Failure? ==> r == Failure(FormatDate(start).error)
    ensures FormatDate(start).Success? && FormatDate(end).Failure? ==> r == Failure(FormatDate(end).error)
    ensures r.Success? ==> (r.value.endPoint == Generation.Path() &&
      r.value.params.Keys == {"country", "start", "end"} &&
      r.value.params["country"] == country.Code() &&
      r.value.params["start"] == FormatDate(start).value &&
      r.value.params["end"] == FormatDate(end).value)
  {
    var startText :- FormatDate(start);
    var endText :- FormatDate(end);
    Success(Request(Generation.Path(), map["country" := country.Code(), "start" := startText, "end" := endText]))
  }

  /**
   * What `fetch_generation` returns for the reply `query` gives to its
   * request: an empty table for an empty reply, else the normalised reply.
   */
  function FetchOutcome(query: Request -> Response, country: Country, start: DateInput, end: DateInput): (r: Result<Frame, Error>)
    requires start.Stamp? ==> ValidDate(start.stamp)
    requires end.Stamp? ==> ValidDate(end.stamp)
    ensures GenerationRequest(country, start, end).Failure? ==> r == Failure(GenerationRequest(country, start, end).error)
    ensures GenerationRequest(country, start, end).Success? ==>
      r == ReplyOutcome(query(GenerationRequest(country, start, end).value))
    ensures r.Success? ==> Shaped(r.value.columns, |r.value.index|)
    ensures r.Failure? ==> r.error != EmptyData
  {
    var req :- GenerationRequest(country, start, end);
    ReplyOutcome(query(req))
  }

  /** The table for a reply: `pd.DataFrame()` for an empty one, else `make_dataframe`'s. */
  function ReplyOutcome(reply: Response): (r: Result<Frame, Error>)
    ensures reply.IsEmpty() ==> r == Success(Frame([], []))
    ensures !reply.IsEmpty() ==> r == Normalise(reply)
    ensures r.Success? ==> Shaped(r.value.columns, |r.value.index|)
    ensures r.Failure? ==> r.error != EmptyData && r == Normalise(reply)
  {
    if reply.IsEmpty() then Success(Frame([], [])) else Normalise(reply)
  }

  /** `EnergyChartsParser`: the transport it queries and the country it was set up with. */
  class EnergyChartsParser {
    /** `query_API`, which sends a request and yields the decoded reply (an empty one on a failed request). */
    const queryApi: Request -> Response
    const apiKey: Option<string>
    var timeZone: string
    var countryCode: Country

    /** `__init__`: the default time zone and the default country, looked up by name. */
    constructor (queryApi: Request -> Response, apiKey: Option<string>)
      requires forall req :: queryApi(req).Keyed()
      ensures this.queryApi == queryApi && this.apiKey == apiKey
      ensures timeZone == DefaultTimeZone
      ensures GetCountry(DefaultCountry) == Success(countryCode) && countryCode == Germany
    {
      this.queryApi := queryApi;
      this.apiKey := apiKey;
      timeZone := DefaultTimeZone;
      var c := GetCountry(DefaultCountry);
      DefaultCountryIsGermany(DefaultCountry);
      countryCode := c.value;
    }

    /**
     * `fetch_generation`: a date that cannot be formatted is an error and
     * nothing is queried; an empty reply gives an empty table; any other
     * reply is made into a table by `make_dataframe`.
     */
    method FetchGeneration(country: Country, start: DateInput, end: DateInput) returns (r: Result<DataFrame, Error>)
      requires start.Stamp? ==> ValidDate(start.stamp)
      requires end.Stamp? ==> ValidDate(end.stamp)
      ensures r.Failure? ==> FetchOutcome(queryApi, country, start, end) == Failure(r.error)
      ensures r.Success? ==> (fresh(r.value) && r.value.Valid() &&
        FetchOutcome(queryApi, country, start, end) == Success(Frame(r.value.index, r.value.columns)))
    {
      var req := GenerationRequest(country, start, end);
      ghost var outcome := FetchOutcome(queryApi, country, start, end);
      if req.Failure? {
        return Failure(req.error);
      }
      var response := queryApi(req.value);
      assert outcome == ReplyOutcome(response);
      if response.IsEmpty() {
        var empty := new DataFrame([]);
        return Success(empty);
      }
      assert outcome == Normalise(response);
      r := MakeDataFrame(response);
    }
  }

  /** The default country name resolves to Germany. */
  lemma DefaultCountryIsGermany(name: string)
    requires name == DefaultCountry
    ensures GetCountry(name) == Success(Germany)
  {
    assert Upper(name) == "GERMANY";
    assert Germany.Name() == Upper(name);
    NameIdentifies(GetCountry(name).value, Germany);
  }

  /**
   * For timestamps the request always goes out, and its parameters give
   * back everything it was made from: the one country with that code and
   * the two dates.
   */
  lemma GenerationRequestRoundTrip(country: Country, start: Timestamp, end: Timestamp)
    requires ValidDate(start) && ValidDate(end)
    ensures GenerationRequest(country, Stamp(start), Stamp(end)).Success?
    ensures var p := GenerationRequest(country, Stamp(start), Stamp(end)).value.params;
      (forall c: Country :: c.Code() == p["country"] <==> c == country) &&
      ParseIso(p["start"]) == Some(start) && ParseIso(p["end"]) == Some(end)
  {
    var p := GenerationRequest(country, Stamp(start), Stamp(end)).value.params;
    CodeIdentifies(country, p["country"]);
    ParseStrftime(start);
    ParseStrftime(end);
  }

  /** The `country` parameter names exactly the chosen member. */
  lemma CodeIdentifies(country: Country, code: string)
    requires code == country.Code()
    ensures forall c: Country :: c.Code() == code <==> c == country
  {
    CodesInjective();
  }

  /** A start date that cannot be parsed is the outcome whatever the transport would have replied. */
  lemma BadDateNoRequest(query: Request -> Response, country: Country, start: string, end: DateInput)
    requires ParseIso(start).None?
    requires end.Stamp? ==> ValidDate(end.stamp)
    ensures GenerationRequest(country, Text(start), end) == Failure(InvalidDateFormat(start))
    ensures FetchOutcome(query, country, Text(start), end) == Failure(InvalidDateFormat(start))
  {
  }

  /**
   * A non-empty reply to this request gives exactly the table, or the error,
   * that `make_dataframe` gives for it.
   */
  lemma NonEmptyReplyNormalised(query: Request -> Response, country: Country, start: DateInput, end: DateInput)
    requires start.Stamp? ==> ValidDate(start.stamp)
    requires end.Stamp? ==> ValidDate(end.stamp)
    requires GenerationRequest(country, start, end).Success?
    requires !query(GenerationRequest(country, start, end).value).IsEmpty()
    ensures FetchOutcome(query, country, start, end) == Normalise(query(GenerationRequest(country, start, end).value))
  {
  }

  /**
   * An empty reply to this request gives the empty table, although
   * `make_dataframe` itself refuses that reply.
   */
  lemma EmptyReplyEmptyFrame(query: Request -> Response, country: Country, start: DateInput, end: DateInput)
    requires start.Stamp? ==> ValidDate(start.stamp)
    requires end.Stamp? ==> ValidDate(end.stamp)
    requires GenerationRequest(country, start, end).Success?
    requires query(GenerationRequest(country, start, end).value).IsEmpty()
    ensures FetchOutcome(query, country, start, end) == Success(Frame([], []))
    ensures Normalise(query(GenerationRequest(country, start, end).value)) == Failure(EmptyData)
  {
  }

  /** The parameters the test suite expects for Germany from 2023-01-01 to 2023-12-31. */
  lemma GenerationRequestExample(start: Timestamp, end: Timestamp)
    requires start == Timestamp(2023, 1, 1) && end == Timestamp(2023, 12, 31)
    ensures GenerationRequest(Germany, Stamp(start), Stamp(end))
      == Success(Request("/public_power", map["country" := "de", "start" := "2023-01-01", "end" := "2023-12-31"]))
  {
    FormatStampExample(start, "2023-01-01");
    FormatStampExample(end, "2023-12-31");
  }

  /**
   * The generation query of the test suite, answered with two hourly rows
   * of `solar` and `wind`, gives a two-by-two table.
   */
  lemma FetchGenerationExample(query: Request -> Response, start: Timestamp, end: Timestamp, reply: Response)
    requires start == Timestamp(2023, 1, 1) && end == Timestamp(2023, 12, 31)
    requires reply == Response(Some([1672531200, 1672534800]), None, None, None, None,
                               Some([Series("solar", [Number(100.0), Number(200.0)]),
                                     Series("wind", [Number(300.0), Number(400.0)])]),
                               None, {})
    requires query(Request("/public_power", map["country" := "de", "start" := "2023-01-01", "end" := "2023-12-31"])) == reply
    ensures FetchOutcome(query, Germany, Stamp(start), Stamp(end))
      == Success(Frame([EpochSeconds(1672531200), EpochSeconds(1672534800)],
                       [Series("solar", [Number(100.0), Number(200.0)]),
                        Series("wind", [Number(300.0), Number(400.0)])]))
  {
    GenerationRequestExample(start, end);
    GenerationExample(reply);
    assert !reply.IsEmpty();
  }
}
