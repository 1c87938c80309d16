/** The proxy (server.js): each route either answers 400 without contacting
    the upstream source, or forwards one upstream request and relays its
    outcome, capping `total_pages` on the two listing routes. */
module Server {
  import opened Js
  import opened Tmdb

  const Language := "en-US"
  /** The upstream serves no page beyond this one. */
  const MaxTotalPages := 500
  const ErrorPrefix := "TMDb API Error: "
  const InvalidCategoryMessage := "Invalid category specified"
  const QueryRequiredMessage := "Search query is required"

  /** One call to the upstream source: an endpoint below its base URL and the query parameters. */
  datatype UpstreamRequest = UpstreamRequest(endpoint: string, params: map<string, Value>)

  /** What the upstream call gave: the parsed body, or a failure carrying the
      `status_message` of the upstream's error body (when there was one) and
      the HTTP client's own error message. */
  datatype UpstreamOutcome<D> =
    | Success(data: D)
    | Failure(statusMessage: Option<string>, errorMessage: string)

  /** A route's decision before any upstream contact. */
  datatype Decision = Reject(message: string) | Forward(request: UpstreamRequest)

  /** What the proxy sends back: 200 with a body, or a status with `{ message }`. */
  datatype Response<D> = Ok(body: D) | Error(status: nat, message: string)

  // ---------------------------------------------------------------------
  // fetchFromTMDb
  // ---------------------------------------------------------------------

  /** The parameters of every upstream call: the API key and language first,
      then the caller's parameters, which win on a clash. */
  function UpstreamParams(apiKey: string, params: map<string, Value>): (r: map<string, Value>)
    ensures r.Keys == params.Keys + {"api_key", "language"}
    ensures forall k :: k in params ==> r[k] == params[k]
    ensures "api_key" !in params ==> r["api_key"] == Str(apiKey)
    ensures "language" !in params ==> r["language"] == Str(Language)
  {
    map["api_key" := Str(apiKey), "language" := Str(Language)] + params
  }

  /** The message of the error fetchFromTMDb throws: the prefix, then the
      upstream's `status_message` when it is a non-empty string, else the
      client's error message. */
  function UpstreamErrorMessage(statusMessage: Option<string>, errorMessage: string): (m: string)
    ensures |m| >= |ErrorPrefix| && m[..|ErrorPrefix|] == ErrorPrefix
    ensures Truthy(statusMessage) ==> m[|ErrorPrefix|..] == statusMessage.value
    ensures !Truthy(statusMessage) ==> m[|ErrorPrefix|..] == errorMessage
  {
    ErrorPrefix + (if Truthy(statusMessage) then statusMessage.value else errorMessage)
  }

  /** The 500 answer every route gives when the upstream call fails. */
  function FailureResponse<D>(statusMessage: Option<string>, errorMessage: string): (r: Response<D>)
    ensures r.Error? && r.status == 500
    ensures r.message != "" && r.message == UpstreamErrorMessage(statusMessage, errorMessage)
  {
    Error(500, UpstreamErrorMessage(statusMessage, errorMessage))
  }

  // ---------------------------------------------------------------------
  // Request decisions
  // ---------------------------------------------------------------------

  /** `const { page = 1 } = req.query`: the query string's text, or the number 1 when absent. */
  function PageArg(query: map<string, string>): (v: Value)
    ensures "page" in query ==> v == Str(query["page"])
    ensures "page" !in query ==> v == Num(1)
  {
    if "page" in query then Str(query["page"]) else Num(1)
  }

  /** GET /api/movies/:category */
  function MoviesByCategory(apiKey: string, category: string, query: map<string, string>): (d: Decision)
    ensures d.Reject? <==> category !in Categories
    ensures d.Reject? ==> d.message == InvalidCategoryMessage
    ensures d.Forward? ==>
      && d.request.endpoint == "/movie/" + category
      && d.request.params.Keys == {"api_key", "language", "page"}
      && d.request.params["api_key"] == Str(apiKey)
      && d.request.params["language"] == Str(Language)
      && d.request.params["page"] == PageArg(query)
  {
    if category !in Categories then Reject(InvalidCategoryMessage)
    else Forward(UpstreamRequest("/movie/" + category, UpstreamParams(apiKey, map["page" := PageArg(query)])))
  }

  /** GET /api/search/movies */
  function SearchMovies(apiKey: string, query: map<string, string>): (d: Decision)
    ensures d.Reject? <==> "query" !in query || AllWhitespace(query["query"])
    ensures d.Reject? ==> d.message == QueryRequiredMessage
    ensures d.Forward? ==>
      && d.request.endpoint == "/search/movie"
      && d.request.params.Keys == {"api_key", "language", "query", "page", "include_adult"}
      && d.request.params["api_key"] == Str(apiKey)
      && d.request.params["language"] == Str(Language)
      && d.request.params["query"] == Str(Trim(query["query"]))
      && d.request.params["page"] == PageArg(query)
      && d.request.params["include_adult"] == Bool(false)
  {
    if "query" !in query || query["query"] == "" || Trim(query["query"]) == "" then
      Reject(QueryRequiredMessage)
    else
      var params := map["query" := Str(Trim(query["query"])), "page" := PageArg(query), "include_adult" := Bool(false)];
      assert "api_key" !in params && "language" !in params;
      assert params.Keys == {"query", "page", "include_adult"};
      Forward(UpstreamRequest("/search/movie", UpstreamParams(apiKey, params)))
  }

  /** GET /api/movie/:id */
  function MovieDetail(apiKey: string, id: string): (r: UpstreamRequest)
    ensures r.endpoint == "/movie/" + id
    ensures r.params == map["api_key" := Str(apiKey), "language" := Str(Language)]
  {
    UpstreamRequest("/movie/" + id, UpstreamParams(apiKey, map[]))
  }

  /** GET /api/movie/:id/credits */
  function MovieCredits(apiKey: string, id: string): (r: UpstreamRequest)
    ensures r.endpoint == "/movie/" + id + "/credits"
    ensures r.params == map["api_key" := Str(apiKey), "language" := Str(Language)]
  {
    UpstreamRequest("/movie/" + id + "/credits", UpstreamParams(apiKey, map[]))
  }

  /** GET /api/configuration */
  function Configuration(apiKey: string): (r: UpstreamRequest)
    ensures r.endpoint == "/configuration"
    ensures r.params == map["api_key" := Str(apiKey), "language" := Str(Language)]
  {
    UpstreamRequest("/configuration", UpstreamParams(apiKey, map[]))
  }

  // ---------------------------------------------------------------------
  // Response normalisation
  // ---------------------------------------------------------------------

  /** `Math.min(total_pages || 1, 500)`. */
  function CappedTotalPages(totalPages: Option<int>): (r: int)
    ensures r <= MaxTotalPages && r != 0
    ensures totalPages.None? || totalPages.value == 0 ==> r == 1
    ensures totalPages.Some? && totalPages.value != 0 && totalPages.value <= MaxTotalPages ==> r == totalPages.value
    ensures totalPages.Some? && totalPages.value > MaxTotalPages ==> r == MaxTotalPages
  {
    Min(OrOne(totalPages), MaxTotalPages)
  }

  /** The detail, credits and configuration routes relay the upstream body unchanged. */
  function Relay<D>(outcome: UpstreamOutcome<D>): (r: Response<D>)
    ensures outcome.Success? ==> r == Ok(outcome.data)
    ensures outcome.Failure? ==> r == FailureResponse(outcome.statusMessage, outcome.errorMessage)
  {
    match outcome
    case Success(data) => Ok(data)
    case Failure(statusMessage, errorMessage) => FailureResponse(statusMessage, errorMessage)
  }

  /** The parsed upstream body of a listing route, whose `total_pages` the handler overwrites. */
  class ListingBody {
    var results: Option<seq<Movie>>
    var page: Option<int>
    var totalPages: Option<int>

    constructor (listing: Listing)
      ensures Snapshot() == listing
    {
      results, page, totalPages := listing.results, listing.page, listing.totalPages;
    }

    /** The JSON the object serialises to. */
    function Snapshot(): Listing
      reads this
    {
      Listing(results, page, totalPages)
    }

    /** `data.total_pages = Math.min(data.total_pages || 1, 500)`. */
    method CapTotalPages()
      modifies this`totalPages
      ensures totalPages == Some(CappedTotalPages(old(totalPages)))
    {
      totalPages := Some(CappedTotalPages(totalPages));
    }
  }

  /** The objects a listing handler may change: the upstream body, when there is one. */
  function BodyOf(outcome: UpstreamOutcome<ListingBody>): set<ListingBody> {
    if outcome.Success? then {outcome.data} else {}
  }

  /** The upstream body with `total_pages` capped, as the listing routes answer. */
  function CappedListing(listing: Listing): (r: Listing)
    ensures r.results == listing.results && r.page == listing.page
    ensures r.totalPages.Some? && r.totalPages.value <= MaxTotalPages
    ensures r.totalPages == Some(CappedTotalPages(listing.totalPages))
  {
    listing.(totalPages := Some(CappedTotalPages(listing.totalPages)))
  }

  /** The part of both listing handlers after the upstream call. */
  method ServeListing(outcome: UpstreamOutcome<ListingBody>) returns (resp: Response<Listing>)
    modifies BodyOf(outcome)
    ensures outcome.Success? ==>
      && outcome.data.Snapshot() == CappedListing(old(outcome.data.Snapshot()))
      && resp == Ok(outcome.data.Snapshot())
    ensures outcome.Failure? ==> resp == FailureResponse(outcome.statusMessage, outcome.errorMessage)
  {
    match outcome
    case Success(data) =>
      data.CapTotalPages();
      resp := Ok(data.Snapshot());
    case Failure(statusMessage, errorMessage) =>
      resp := FailureResponse(statusMessage, errorMessage);
  }

  /** The handler of GET /api/movies/:category. `upstream` is what the upstream
      call would give; it is consulted only when the request is forwarded,
      and `sent` is the upstream request made, if any. */
  method HandleMoviesByCategory(apiKey: string, category: string, query: map<string, string>,
                                upstream: UpstreamOutcome<ListingBody>)
    returns (sent: Option<UpstreamRequest>, resp: Response<Listing>)
    modifies BodyOf(upstream)
    ensures category !in Categories ==>
      && sent == None && resp == Error(400, InvalidCategoryMessage)
      && (upstream.Success? ==> unchanged(upstream.data))
    ensures category in Categories ==>
      && sent == Some(MoviesByCategory(apiKey, category, query).request)
      && (upstream.Success? ==>
            upstream.data.Snapshot() == CappedListing(old(upstream.data.Snapshot()))
            && resp == Ok(upstream.data.Snapshot()))
      && (upstream.Failure? ==> resp == FailureResponse(upstream.statusMessage, upstream.errorMessage))
  {
    match MoviesByCategory(apiKey, category, query)
    case Reject(message) =>
      sent, resp := None, Error(400, message);
    case Forward(request) =>
      sent := Some(request);
      resp := ServeListing(upstream);
  }

  /** The handler of GET /api/search/movies, in the same terms as HandleMoviesByCategory. */
  method HandleSearchMovies(apiKey: string, query: map<string, string>, upstream: UpstreamOutcome<ListingBody>)
    returns (sent: Option<UpstreamRequest>, resp: Response<Listing>)
    modifies BodyOf(upstream)
    ensures ("query" !in query || AllWhitespace(query["query"])) ==>
      && sent == None && resp == Error(400, QueryRequiredMessage)
      && (upstream.Success? ==> unchanged(upstream.data))
    ensures !("query" !in query || AllWhitespace(query["query"])) ==>
      && sent == Some(SearchMovies(apiKey, query).request)
      && (upstream.Success? ==>
            upstream.data.Snapshot() == CappedListing(old(upstream.data.Snapshot()))
            && resp == Ok(upstream.data.Snapshot()))
      && (upstream.Failure? ==> resp == FailureResponse(upstream.statusMessage, upstream.errorMessage))
  {
    match SearchMovies(apiKey, query)
    case Reject(message) =>
      sent, resp := None, Error(400, message);
    case Forward(request) =>
      sent := Some(request);
      resp := ServeListing(upstream);
  }
}
