/** The browser (App.js): the `MovieBrowser` component's nine pieces of state,
    the user actions that change them and issue one request to the proxy,
    the two halves of a fetch, pagination enablement and the card's fallbacks. */
module App {
  import opened Js
  import opened Tmdb
  import Server

  const ApiBase := "http://localhost:5000/api"

  datatype Mode = CategoryMode | SearchMode

  /** A request to the proxy: an endpoint below the API base and the parameters in insertion order. */
  datatype Request = Request(endpoint: string, params: seq<(string, Value)>)

  /** `new URLSearchParams(params).toString()`, without percent-encoding. */
  function QueryString(params: seq<(string, Value)>): (q: string)
    ensures q == "" <==> params == []
  {
    if params == [] then ""
    else
      var field := params[0].0 + "=" + ValueText(params[0].1);
      if |params| == 1 then field else field + "&" + QueryString(params[1..])
  }

  /** The URL fetched: a `?` and the query string follow the endpoint exactly when there are parameters. */
  function Url(r: Request): (u: string)
    ensures r.params == [] ==> u == ApiBase + r.endpoint
    ensures r.params != [] ==> u == ApiBase + r.endpoint + "?" + QueryString(r.params)
  {
    var queryString := QueryString(r.params);
    ApiBase + r.endpoint + (if queryString != "" then "?" + queryString else "")
  }

  /** The `req.query` object the proxy parses from a request's query string:
      each parameter name with the text `URLSearchParams` wrote for its value. */
  function QueryOf(params: seq<(string, Value)>): (query: map<string, string>)
    ensures query.Keys == set i | 0 <= i < |params| :: params[i].0
  {
    if params == [] then map[]
    else map[params[0].0 := ValueText(params[0].1)] + QueryOf(params[1..])
  }

  /** What `loadCategory(cat, page)` asks the proxy for. */
  function CategoryRequest(cat: string, page: int): (r: Request)
    ensures r.endpoint == "/movies/" + cat
    ensures QueryOf(r.params) == map["page" := IntToDecimal(page)]
  {
    Request("/movies/" + cat, [("page", Num(page))])
  }

  /** What a search for the (already trimmed) `query` asks the proxy for. */
  function SearchRequest(query: string, page: int): (r: Request)
    ensures r.endpoint == "/search/movies"
    ensures QueryOf(r.params) == map["query" := query, "page" := IntToDecimal(page)]
  {
    Request("/search/movies", [("query", Str(query)), ("page", Num(page))])
  }

  /** The request that paging re-issues: the stored search in search mode, else the current category. */
  function PagedRequest(mode: Mode, cat: string, searchQuery: string, page: int): (r: Request)
    ensures "page" in QueryOf(r.params) && QueryOf(r.params)["page"] == IntToDecimal(page)
    ensures mode == SearchMode ==>
      r.endpoint == "/search/movies" && "query" in QueryOf(r.params) && QueryOf(r.params)["query"] == searchQuery
    ensures mode == CategoryMode ==> r.endpoint == "/movies/" + cat && "query" !in QueryOf(r.params)
  {
    if mode == SearchMode then SearchRequest(searchQuery, page) else CategoryRequest(cat, page)
  }

  /** A request the browser issues from a valid state is one the proxy
      forwards, whatever its page (a negative upstream `page` can make paging
      ask for a negative one): the category it names is accepted, a search
      carries its stored query unchanged, the page goes upstream as the text
      `String(page)`, and for a page that is not negative that text reads back
      as the page asked for. */
  lemma {:induction false} PagedRequestForwarded(apiKey: string, mode: Mode, cat: string, searchQuery: string, page: int)
    requires cat in Categories
    requires mode == SearchMode ==> searchQuery != "" && IsTrimmed(searchQuery)
    ensures var query := QueryOf(PagedRequest(mode, cat, searchQuery, page).params);
      var d := if mode == SearchMode then Server.SearchMovies(apiKey, query)
               else Server.MoviesByCategory(apiKey, cat, query);
      && d.Forward?
      && d.request.endpoint == (if mode == SearchMode then "/search/movie" else "/movie/" + cat)
      && d.request.params["page"] == Str(IntToDecimal(page))
      && (page >= 0 ==> DecimalValue(IntToDecimal(page)) == page)
      && (mode == SearchMode ==> d.request.params["query"] == Str(searchQuery))
  {
    if page >= 0 {
      DecimalRoundTrip(page);
    }
    if mode == SearchMode {
      assert !IsWhitespace(searchQuery[0]);
      TrimOfTrimmed(searchQuery);
    }
  }

  /** The URL of a category request. */
  lemma CategoryUrl(cat: string, page: int)
    ensures Url(CategoryRequest(cat, page)) == ApiBase + "/movies/" + cat + "?page=" + IntToDecimal(page)
  {
  }

  /** The URL of a search request. */
  lemma SearchUrl(query: string, page: int)
    ensures Url(SearchRequest(query, page)) ==
      ApiBase + "/search/movies?query=" + query + "&page=" + IntToDecimal(page)
  {
    var p := IntToDecimal(page);
    calc {
      Url(SearchRequest(query, page));
    == { assert QueryString(SearchRequest(query, page).params[1..]) == "page=" + p; }
      ApiBase + "/search/movies" + "?" + ("query" + "=" + query + "&" + ("page=" + p));
    ==
      ApiBase + "/search/movies?query=" + query + "&page=" + p;
    }
  }

  /** `Math.max(1, currentPage - 1)`. */
  function PrevPage(currentPage: int): (p: int)
    ensures p >= 1
    ensures currentPage > 1 ==> p == currentPage - 1
    ensures currentPage <= 1 ==> p == 1
  {
    Max(1, currentPage - 1)
  }

  /** `Math.min(totalPages, currentPage + 1)`. */
  function NextPage(currentPage: int, totalPages: int): (p: int)
    ensures p <= totalPages
    ensures currentPage < totalPages ==> p == currentPage + 1
    ensures currentPage >= totalPages ==> p == totalPages
  {
    Min(totalPages, currentPage + 1)
  }

  /** How a fetch ended. */
  datatype Reply =
    | Delivered(data: Listing)                                       // `response.ok`; the body parsed
    | Refused(status: nat, statusText: string, message: Option<string>) // not ok; the error body's `message`
    | Thrown(reason: string)                                         // the fetch or a body parse threw

  /** The error text a failed fetch shows: the proxy's message when it is
      non-empty, else the status line; a thrown error shows its own message. */
  function FailureText(reply: Reply): (text: string)
    requires !reply.Delivered?
    ensures reply.Thrown? ==> text == reply.reason
    ensures reply.Refused? && Truthy(reply.message) ==> text == reply.message.value
    ensures reply.Refused? && !Truthy(reply.message) ==>
      text == "HTTP " + NatToDecimal(reply.status) + " - " + reply.statusText
  {
    match reply
    case Refused(status, statusText, message) =>
      if Truthy(message) then message.value else "HTTP " + NatToDecimal(status) + " - " + statusText
    case Thrown(reason) => reason
  }

  /** The reply the browser gets for a proxy response. */
  function ReplyTo(resp: Server.Response<Listing>, statusText: string): (r: Reply)
    ensures r.Delivered? <==> resp.Ok?
    ensures resp.Ok? ==> r.data == resp.body
    ensures resp.Error? ==> r.Refused? && r.status == resp.status && r.statusText == statusText
    ensures resp.Error? && resp.message != "" ==> FailureText(r) == resp.message
  {
    match resp
    case Ok(body) => Delivered(body)
    case Error(status, message) => Refused(status, statusText, Some(message))
  }

  /** An upstream failure reaches the browser as exactly the proxy's
      "TMDb API Error: ..." text: the status-line fallback is never used. */
  lemma UpstreamFailureShownVerbatim(statusMessage: Option<string>, errorMessage: string, statusText: string)
    ensures var resp: Server.Response<Listing> := Server.FailureResponse(statusMessage, errorMessage);
      && ReplyTo(resp, statusText).Refused?
      && FailureText(ReplyTo(resp, statusText)) == Server.UpstreamErrorMessage(statusMessage, errorMessage)
  {
  }

  /** The page count the browser stores after a listing the proxy capped is
      the capped value itself, so it never exceeds the upstream's limit. */
  lemma StoredTotalPagesCapped(listing: Listing)
    ensures OrOne(Server.CappedListing(listing).totalPages) == Server.CappedTotalPages(listing.totalPages)
    ensures OrOne(Server.CappedListing(listing).totalPages) <= Server.MaxTotalPages
  {
  }

  // ---------------------------------------------------------------------
  // MovieCard
  // ---------------------------------------------------------------------

  /** `movie.title || movie.name || 'Untitled'`. */
  function CardTitle(movie: Movie): (t: string)
    ensures t != ""
    ensures Truthy(movie.title) ==> t == movie.title.value
    ensures !Truthy(movie.title) && Truthy(movie.name) ==> t == movie.name.value
    ensures !Truthy(movie.title) && !Truthy(movie.name) ==> t == "Untitled"
  {
    if Truthy(movie.title) then movie.title.value
    else if Truthy(movie.name) then movie.name.value
    else "Untitled"
  }

  /** `(movie.release_date || '').slice(0, 4) || '—'`: the first four characters
      of the release date, or a dash when there is no date. */
  function CardYear(movie: Movie): (y: string)
    ensures y != "" && |y| <= 4
    ensures Truthy(movie.releaseDate) ==>
      var d := movie.releaseDate.value; y == d[..Min(4, |d|)]
    ensures !Truthy(movie.releaseDate) ==> y == "—"
  {
    var date := if Truthy(movie.releaseDate) then movie.releaseDate.value else "";
    var head := date[..Min(4, |date|)];
    if head != "" then head else "—"
  }

  // ---------------------------------------------------------------------
  // MovieBrowser
  // ---------------------------------------------------------------------

  class MovieBrowser {
    var movies: seq<Movie>
    var loading: bool
    var error: string
    var currentPage: int
    var totalPages: int
    var mode: Mode
    var category: string
    var searchQuery: string
    var searchInput: string

    /** The category is one the selector offers; search mode holds a trimmed,
        non-empty query; no error shows while loading; an error shows with no
        results, on page 1 of 1. */
    ghost predicate Valid()
      reads this
    {
      && category in Categories
      && (mode == SearchMode ==> searchQuery != "" && IsTrimmed(searchQuery))
      && (loading ==> error == "")
      && (error != "" ==> movies == [] && currentPage == 1 && totalPages == 1)
    }

    /** The initial `useState` values. */
    constructor ()
      ensures Valid()
      ensures movies == [] && !loading && error == "" && currentPage == 1 && totalPages == 1
      ensures mode == CategoryMode && category == "popular" && searchQuery == "" && searchInput == ""
    {
      movies, loading, error, currentPage, totalPages := [], false, "", 1, 1;
      mode, category, searchQuery, searchInput := CategoryMode, "popular", "", "";
    }

    /** The pagination bar shows when nothing is loading and there are
        results; in a valid state it never shows beside an error. */
    predicate PaginationVisible()
      reads this
      ensures PaginationVisible() && Valid() ==> error == ""
    {
      !loading && |movies| > 0
    }

    /** The previous button is enabled exactly when `handlePrevPage` steps back one page. */
    predicate PrevDisabled()
      reads this
      ensures !PrevDisabled() <==> PrevPage(currentPage) == currentPage - 1
    {
      currentPage <= 1
    }

    /** The next button is enabled exactly when `handleNextPage` steps on one page. */
    predicate NextDisabled()
      reads this
      ensures !NextDisabled() <==> NextPage(currentPage, totalPages) == currentPage + 1
    {
      currentPage >= totalPages
    }

    /** The synchronous start of `fetchMovies`. */
    method Begin(endpoint: string, params: seq<(string, Value)>) returns (req: Request)
      requires Valid()
      modifies this`loading, this`error
      ensures Valid() && loading && error == ""
      ensures req == Request(endpoint, params)
    {
      loading := true;
      error := "";
      req := Request(endpoint, params);
    }

    /** The end of `fetchMovies`, once the one outstanding request has settled. */
    method Complete(reply: Reply)
      requires Valid() && loading
      modifies this`movies, this`totalPages, this`currentPage, this`error, this`loading
      ensures Valid() && !loading
      ensures reply.Delivered? ==>
        && movies == reply.data.results.GetOr([])
        && totalPages == OrOne(reply.data.totalPages)
        && currentPage == OrOne(reply.data.page)
        && error == ""
      ensures !reply.Delivered? ==>
        error == FailureText(reply) && movies == [] && totalPages == 1 && currentPage == 1
    {
      match reply {
        case Delivered(data) =>
          movies := data.results.GetOr([]);
          totalPages := OrOne(data.totalPages);
          currentPage := OrOne(data.page);
        case _ =>
          error := FailureText(reply);
          movies := [];
          totalPages := 1;
          currentPage := 1;
      }
      loading := false;
    }

    /** `loadCategory(cat, page)`. */
    method LoadCategory(cat: string, page: int) returns (req: Request)
      requires Valid() && cat in Categories
      modifies this`mode, this`category, this`loading, this`error
      ensures Valid() && loading && error == ""
      ensures mode == CategoryMode && category == cat
      ensures req == CategoryRequest(cat, page)
    {
      mode := CategoryMode;
      category := cat;
      req := Begin("/movies/" + cat, [("page", Num(page))]);
    }

    /** The effect run on mount: the first page of popular movies. */
    method Mount() returns (req: Request)
      requires Valid()
      modifies this`mode, this`category, this`loading, this`error
      ensures Valid() && loading && error == ""
      ensures mode == CategoryMode && category == "popular"
      ensures req == CategoryRequest("popular", 1)
    {
      req := LoadCategory("popular", 1);
    }

    /** Choosing an option of the category selector. */
    method ChangeCategory(cat: string) returns (req: Request)
      requires Valid() && cat in Categories
      modifies this`mode, this`category, this`loading, this`error
      ensures Valid() && loading && error == ""
      ensures mode == CategoryMode && category == cat
      ensures req == CategoryRequest(cat, 1)
    {
      req := LoadCategory(cat, 1);
    }

    /** Typing in the search box. */
    method TypeSearch(text: string)
      requires Valid()
      modifies this`searchInput
      ensures Valid() && searchInput == text
    {
      searchInput := text;
    }

    /** `searchMovies(query, page)`: a blank query falls back to the current
        category at page 1; otherwise the trimmed query is searched. */
    method SearchMovies(query: string, page: int) returns (req: Request)
      requires Valid()
      modifies this`mode, this`category, this`searchQuery, this`loading, this`error
      ensures Valid() && loading && error == "" && category == old(category)
      ensures AllWhitespace(query) ==>
        && mode == CategoryMode && searchQuery == old(searchQuery)
        && req == CategoryRequest(old(category), 1)
      ensures !AllWhitespace(query) ==>
        && mode == SearchMode && searchQuery == Trim(query)
        && req == SearchRequest(Trim(query), page)
    {
      var trimmedQuery := Trim(query);
      if trimmedQuery == "" {
        assert AllWhitespace(query);
        req := LoadCategory(category, 1);
      } else {
        assert !AllWhitespace(query);
        mode := SearchMode;
        searchQuery := trimmedQuery;
        assert Valid();
        req := Begin("/search/movies", [("query", Str(trimmedQuery)), ("page", Num(page))]);
      }
    }

    /** The search button, or Enter in the search box. */
    method HandleSearch() returns (req: Request)
      requires Valid()
      modifies this`mode, this`category, this`searchQuery, this`loading, this`error
      ensures Valid() && loading && error == "" && category == old(category)
      ensures AllWhitespace(searchInput) ==>
        && mode == CategoryMode && searchQuery == old(searchQuery)
        && req == CategoryRequest(old(category), 1)
      ensures !AllWhitespace(searchInput) ==>
        && mode == SearchMode && searchQuery == Trim(searchInput)
        && req == SearchRequest(Trim(searchInput), 1)
    {
      req := SearchMovies(searchInput, 1);
    }

    /** The reset button. */
    method HandleReset() returns (req: Request)
      requires Valid()
      modifies this`searchInput, this`searchQuery, this`mode, this`category, this`loading, this`error
      ensures Valid() && loading && error == ""
      ensures searchInput == "" && searchQuery == ""
      ensures mode == CategoryMode && category == "popular"
      ensures req == CategoryRequest("popular", 1)
    {
      // The three updates are batched by React, so their order is not observable;
      // leaving search mode first keeps the invariant between the steps.
      req := LoadCategory("popular", 1);
      searchInput := "";
      searchQuery := "";
    }

    /** `handlePrevPage`: the same query, one page back but never below page 1. */
    method HandlePrevPage() returns (req: Request)
      requires Valid()
      modifies this`mode, this`category, this`searchQuery, this`loading, this`error
      ensures Valid() && loading && error == ""
      ensures mode == old(mode) && category == old(category) && searchQuery == old(searchQuery)
      ensures req == PagedRequest(mode, category, searchQuery, PrevPage(currentPage))
    {
      var newPage := PrevPage(currentPage);
      if mode == SearchMode {
        TrimOfTrimmed(searchQuery);
        req := SearchMovies(searchQuery, newPage);
      } else {
        req := LoadCategory(category, newPage);
      }
    }

    /** `handleNextPage`: the same query, one page on but never beyond `totalPages`. */
    method HandleNextPage() returns (req: Request)
      requires Valid()
      modifies this`mode, this`category, this`searchQuery, this`loading, this`error
      ensures Valid() && loading && error == ""
      ensures mode == old(mode) && category == old(category) && searchQuery == old(searchQuery)
      ensures req == PagedRequest(mode, category, searchQuery, NextPage(currentPage, totalPages))
    {
      var newPage := NextPage(currentPage, totalPages);
      if mode == SearchMode {
        TrimOfTrimmed(searchQuery);
        req := SearchMovies(searchQuery, newPage);
      } else {
        req := LoadCategory(category, newPage);
      }
    }

    /** A click on the previous-page button, which fires only when the bar shows and the button is enabled. */
    method PressPrev() returns (req: Option<Request>)
      requires Valid()
      modifies this`mode, this`category, this`searchQuery, this`loading, this`error
      ensures Valid()
      ensures req.Some? <==> old(PaginationVisible()) && !PrevDisabled()
      ensures req.Some? ==> loading && req.value == PagedRequest(mode, category, searchQuery, currentPage - 1)
      ensures mode == old(mode) && category == old(category) && searchQuery == old(searchQuery)
      ensures req.None? ==> loading == old(loading) && error == old(error)
    {
      if !PaginationVisible() || PrevDisabled() {
        return None;
      }
      var r := HandlePrevPage();
      req := Some(r);
    }

    /** A click on the next-page button, which fires only when the bar shows and the button is enabled. */
    method PressNext() returns (req: Option<Request>)
      requires Valid()
      modifies this`mode, this`category, this`searchQuery, this`loading, this`error
      ensures Valid()
      ensures req.Some? <==> old(PaginationVisible()) && !NextDisabled()
      ensures req.Some? ==> loading && req.value == PagedRequest(mode, category, searchQuery, currentPage + 1)
      ensures mode == old(mode) && category == old(category) && searchQuery == old(searchQuery)
      ensures req.None? ==> loading == old(loading) && error == old(error)
    {
      if !PaginationVisible() || NextDisabled() {
        return None;
      }
      var r := HandleNextPage();
      req := Some(r);
    }
  }

  // ---------------------------------------------------------------------
  // Scenarios
  // ---------------------------------------------------------------------

  /** Submitting "Inception" switches to search mode and asks for its first page. */
  method SearchInceptionScenario() returns (req: Request)
    ensures req == SearchRequest("Inception", 1)
  {
    assert !IsWhitespace("Inception"[0]);
    TrimOfTrimmed("Inception");
    var browser := new MovieBrowser();
    var first := browser.Mount();
    browser.Complete(Delivered(Listing(Some([]), Some(1), Some(1))));
    browser.TypeSearch("Inception");
    req := browser.HandleSearch();
    assert browser.mode == SearchMode;
  }

  /** A blank search after a search falls back to the last category at page 1. */
  method BlankSearchScenario() returns (req: Request)
    ensures req == CategoryRequest("top_rated", 1)
  {
    assert !IsWhitespace("Inception"[0]);
    assert AllWhitespace("   ") by {
      forall i | 0 <= i < 3 ensures IsWhitespace("   "[i]) { }
    }
    var browser := new MovieBrowser();
    var first := browser.ChangeCategory("top_rated");
    browser.Complete(Delivered(Listing(Some([]), Some(1), Some(1))));
    browser.TypeSearch("Inception");
    var second := browser.HandleSearch();
    browser.Complete(Delivered(Listing(Some([]), Some(1), Some(1))));
    browser.TypeSearch("   ");
    req := browser.HandleSearch();
    assert browser.mode == CategoryMode;
  }

  /** On the last page the next-page button is disabled and no request is issued. */
  method LastPageScenario() returns (req: Option<Request>)
    ensures req == None
  {
    var browser := new MovieBrowser();
    var first := browser.Mount();
    var movie := Movie(1, Some("Heat"), None, Some("1995-12-15"));
    browser.Complete(Delivered(Listing(Some([movie]), Some(3), Some(3))));
    assert browser.NextDisabled();
    req := browser.PressNext();
  }

  /** A failed fetch shows the proxy's message, with no results and no pagination bar, on page 1 of 1. */
  method FailureScenario() returns (shown: string, page: int, pages: int, count: nat, visible: bool)
    ensures shown == "TMDb API Error: Invalid API key"
    ensures page == 1 && pages == 1 && count == 0 && !visible
  {
    var browser := new MovieBrowser();
    var first := browser.Mount();
    var resp: Server.Response<Listing> := Server.FailureResponse(Some("Invalid API key"), "Request failed with status code 401");
    browser.Complete(ReplyTo(resp, "Internal Server Error"));
    shown, page, pages := browser.error, browser.currentPage, browser.totalPages;
    count, visible := |browser.movies|, browser.PaginationVisible();
  }
}
