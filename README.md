# Movie browser: proxy contract and browser state machine

A model of the two pieces of decision logic in a movie browsing web app
that sits on top of the TMDb movie metadata API.

- **The proxy** (`server.js`) hides the API key. Each of its routes does one
  of two things. It can answer 400 without contacting the upstream source.
  Or it can forward exactly one upstream request, built by `fetchFromTMDb`,
  and relay the outcome. The two listing routes first cap `total_pages` at
  500: they overwrite that field of the upstream body in place. An upstream
  failure becomes a 500 whose message is `"TMDb API Error: "` followed by
  the upstream's `status_message` (or the HTTP client's error message).
- **The browser** (`App.js`) is the `MovieBrowser` component. It holds nine
  pieces of state: `movies`, `loading`, `error`, `currentPage`,
  `totalPages`, `mode`, `category`, `searchQuery` and `searchInput`. Each
  user action updates them and issues one request to the proxy. The
  asynchronous `fetchMovies` is split in two steps: `Begin` issues the
  request, and `Complete` applies the reply once it has settled.

Modules follow the program: `Js` (js.dfy) holds the JavaScript built-ins
the code relies on (`trim`, `x || default`, `Math.min`/`Math.max`,
`String(n)`). `Tmdb` (tmdb.dfy) holds the JSON shapes both sides share and
the four categories. `Server` (server.dfy) models server.js and `App`
(app.dfy) models App.js.

Modelling choices:

- The upstream call and the browser's `fetch` are not performed. Whatever
  they produce is a parameter. A server handler takes an
  `UpstreamOutcome`: `Success(data)` or
  `Failure(statusMessage?, errorMessage)`. The handler consults it only
  when it forwards a request, and its `sent` result says which request
  went upstream, if any. The browser's `Complete` takes a `Reply`.
- The upstream listing body is a class, `Server.ListingBody`, because the
  handlers change its `total_pages` field in place. `MovieBrowser` is a
  class whose fields are the nine state variables. Its methods name in
  `modifies` exactly the fields the source's setters touch.
- `MovieBrowser.Valid()` is the invariant every action keeps:
  - the category is one of the four the selector offers;
  - in search mode the stored query is trimmed and non-empty;
  - no error is shown while loading;
  - when an error is shown there are no results and the page is 1 of 1.
- The API key (an environment variable with a built-in fallback) is a
  parameter `apiKey`.

Three behaviours of the code worth stating explicitly:
- A missing `total_pages`, or one of 0, becomes 1. A negative value is
  kept as it is.
- Paging clamps only on one side. Previous-page never goes below 1.
  Next-page never goes beyond `totalPages`.
- When the upstream error body has no `status_message`, a failure
  carries the HTTP client's own message, not a generic one.

## Model

| member | source | states |
|---|---|---|
| `Js.Min` | server.js:53 | `Math.min`: the result is one of the arguments and at most both |
| `Js.Max` | App.js:208 | `Math.max`: the result is one of the arguments and at least both |
| `Js.OrOne` | App.js:169-170 | the default-to-1 idiom on a possibly missing number: never 0, the value itself when present and non-zero, else 1 |
| `Js.Option.GetOr` | App.js:168 | the or-default idiom on a value whose present forms are all truthy: the value when present, else the default |
| `Js.Truthy` | App.js:164 | a possibly missing string is falsy exactly when it is missing or empty |
| `Js.LeadingWhitespace` | server.js:68 | the count of leading characters `trim` removes: all of them are whitespace and the next one is not |
| `Js.TrailingWhitespace` | server.js:68 | the count of trailing characters `trim` removes: all of them are whitespace and the one before is not |
| `Js.WhitespaceIsEcmaSet` | server.js:68 | the characters `trim` removes are exactly ECMAScript's WhiteSpace (TAB, VT, FF, ZWNBSP and the Unicode space separators) and LineTerminator (LF, CR, LS, PS) code points |
| `Js.Trim` | App.js:188-189 | `trim()`: no whitespace at either end, and the result is empty exactly when the input is all whitespace |
| `Js.TrimKeepsMiddle` | App.js:188 | trimming removes only whitespace at the ends and keeps the middle of the input intact |
| `Js.TrimOfTrimmed` | App.js:209-210 | a string with non-whitespace ends is its own trim, so a stored search query survives being trimmed again when paging |
| `Js.TrimIdempotent` | App.js:188-193 | trimming twice equals trimming once |
| `Js.NatToDecimal` | App.js:164 | the decimal text of a number is non-empty and made only of digits |
| `Js.IntToDecimal` | App.js:156 | `String(n)`: the decimal digits of a non-negative number, or a minus sign followed by those of its magnitude |
| `Js.ValueText` | App.js:156 | the text `URLSearchParams` writes for a value: a string as it is, a number through `String(n)`, a boolean as `true` or `false` |
| `Js.DecimalRoundTrip` | server.js:50 | the decimal text of a page number, which the proxy forwards upstream as it received it, reads back as that number |
| `Server.UpstreamParams` | server.js:19-27 | every upstream call carries `api_key` and `language = en-US`, and a caller-supplied key overrides either one |
| `Server.UpstreamErrorMessage` | server.js:29-34 | the thrown message is `TMDb API Error: ` followed by `status_message` when it is non-empty, else the client error message |
| `Server.FailureResponse` | server.js:56-59 | an upstream failure is answered 500 with that non-empty message |
| `Server.PageArg` | server.js:43 | the `page` query argument as received, or the number 1 when it is absent |
| `Server.MoviesByCategory` | server.js:40-50 | 400 `Invalid category specified` exactly when the category is not one of the four; otherwise one request to `/movie/<category>` whose parameters are exactly `api_key`, `language` and `page`, with `page` defaulting to 1 |
| `Server.SearchMovies` | server.js:64-76 | 400 `Search query is required` exactly when the query is missing or all whitespace; otherwise one request to `/search/movie` with the trimmed query, the given page (default 1) and `include_adult = false` |
| `Server.MovieDetail` | server.js:89-92 | the detail route calls `/movie/<id>` with only the key and language |
| `Server.MovieCredits` | server.js:101-104 | the credits route calls `/movie/<id>/credits` with only the key and language |
| `Server.Configuration` | server.js:113-115 | the configuration route calls `/configuration` with only the key and language |
| `Server.CappedTotalPages` | server.js:53 | the capped page count is never above 500 and never 0, is 1 when missing or 0, keeps every other value up to 500, and is 500 above that |
| `Server.Relay` | server.js:89-121 | the detail, credits and configuration routes return the upstream body unchanged, or the 500 failure answer |
| `Server.ListingBody.CapTotalPages` | server.js:53 | overwrites the body's `total_pages` with its capped value and leaves the rest of the body alone |
| `Server.CappedListing` | server.js:78 | the answered listing keeps results and page and carries a present page count of at most 500 |
| `Server.ServeListing` | server.js:50-59 | on success the body is capped in place and sent; on failure the 500 answer is sent |
| `Server.HandleMoviesByCategory` | server.js:40-61 | an invalid category gives 400, sends nothing upstream and leaves the body untouched; a valid one sends exactly the decided request and answers with the capped body or the 500 |
| `Server.HandleSearchMovies` | server.js:64-86 | a blank query gives 400, sends nothing upstream and leaves the body untouched; otherwise exactly the decided request is sent and the capped body or the 500 is answered |
| `App.QueryString` | App.js:156 | the query string is empty exactly when there are no parameters |
| `App.Url` | App.js:157 | the URL is the API base and the endpoint, followed by `?` and the query string only when there are parameters |
| `App.QueryOf` | App.js:156 | the query object the proxy parses has exactly the parameter names the browser sent |
| `App.CategoryRequest` | App.js:184 | a category load asks for `/movies/<cat>` with only `page`, written as `String(page)` |
| `App.SearchRequest` | App.js:194 | a search asks for `/search/movies` with only `query` (as given) and `page` |
| `App.PagedRequest` | App.js:207-223 | paging sends the given page whatever the mode; in search mode the stored query to `/search/movies`, else the category to `/movies/<cat>` with no query |
| `App.PagedRequestForwarded` | server.js:40-76 | every request the browser can issue from a valid state, at any page (negative ones included), is forwarded by the proxy, never answered 400: to `/movie/<cat>` or `/search/movie`, with the stored query unchanged and the page sent as `String(page)`, which reads back as the page asked for when it is not negative |
| `App.CategoryUrl` | App.js:184 | a category load fetches `<base>/movies/<cat>?page=<page>` |
| `App.SearchUrl` | App.js:194 | a search fetches `<base>/search/movies?query=<q>&page=<page>` |
| `App.PrevPage` | App.js:208 | the previous page requested is never below 1, and is one less than the current page when that is above 1 |
| `App.NextPage` | App.js:217 | the next page requested never exceeds `totalPages`, and is one more than the current page when that is below it |
| `App.FailureText` | App.js:162-172 | the error shown is the proxy's message when non-empty, else `HTTP <status> - <statusText>`; a thrown error shows its own message |
| `App.ReplyTo` | App.js:159-165 | a proxy 200 reaches the browser as its body; an error status arrives with its status and status text, and a non-empty proxy message is the text shown |
| `App.UpstreamFailureShownVerbatim` | App.js:164 | a proxy 500 reaches the browser as exactly the `TMDb API Error: ...` text, never as the status-line fallback |
| `App.StoredTotalPagesCapped` | App.js:169 | the page count stored after a capped listing is the capped value itself, so it is at most 500 |
| `App.CardTitle` | App.js:100 | the card title is never empty: the title, else the name, else `Untitled` |
| `App.CardYear` | App.js:98 | the card year is never empty and at most four characters: the start of the release date, else a dash |
| `App.MovieBrowser.constructor` | App.js:142-150 | the initial state: no movies, not loading, no error, page 1 of 1, category mode on `popular`, empty queries |
| `App.MovieBrowser.Begin` | App.js:152-154 | starting a fetch sets `loading`, clears `error`, changes nothing else and issues the given request |
| `App.MovieBrowser.Complete` | App.js:167-178 | after a completed fetch `loading` is false; success stores results (or none), `total_pages` and `page` each defaulting to 1 when missing or 0; failure stores the error text, no movies and page 1 of 1; mode, category and queries are untouched |
| `App.MovieBrowser.PaginationVisible` | App.js:283 | the pagination bar shows only when nothing is loading and there are results, so never beside an error |
| `App.MovieBrowser.PrevDisabled` | App.js:287 | the previous button is enabled exactly when `handlePrevPage` goes back exactly one page |
| `App.MovieBrowser.NextDisabled` | App.js:299 | the next button is enabled exactly when `handleNextPage` goes on exactly one page |
| `App.MovieBrowser.LoadCategory` | App.js:181-185 | category mode on the given category, and a request for `/movies/<cat>` at the given page |
| `App.MovieBrowser.Mount` | App.js:225-227 | on mount, page 1 of `popular` is requested |
| `App.MovieBrowser.ChangeCategory` | App.js:240-242 | choosing a category switches to it in category mode at page 1 |
| `App.MovieBrowser.TypeSearch` | App.js:253 | typing changes only `searchInput` |
| `App.MovieBrowser.SearchMovies` | App.js:187-195 | a blank query falls back to the current category at page 1 in category mode; otherwise search mode with the trimmed query stored and requested at the given page |
| `App.MovieBrowser.HandleSearch` | App.js:197-199 | submitting searches the typed text at page 1, with the same blank-input fallback |
| `App.MovieBrowser.HandleReset` | App.js:201-205 | reset clears both queries, selects `popular` in category mode and requests its page 1 |
| `App.MovieBrowser.HandlePrevPage` | App.js:207-214 | previous page keeps the mode, category and query, and re-issues the same search or category at `max(1, currentPage - 1)` |
| `App.MovieBrowser.HandleNextPage` | App.js:216-223 | next page keeps the mode, category and query, and re-issues the same search or category at `min(totalPages, currentPage + 1)` |
| `App.MovieBrowser.PressPrev` | App.js:283-291 | the previous button issues a request exactly when the bar shows (not loading, some results) and `currentPage > 1`, and then asks for exactly the page before |
| `App.MovieBrowser.PressNext` | App.js:297-303 | the next button issues a request exactly when the bar shows and `currentPage < totalPages`, and then asks for exactly the page after |
| `App.SearchInceptionScenario` | App.js:197-199 | submitting `Inception` issues a search for `Inception` at page 1 |
| `App.BlankSearchScenario` | App.js:187-191 | a blank search after a search falls back to the last category (`top_rated`) at page 1 |
| `App.LastPageScenario` | App.js:297-300 | on page 3 of 3 the next button issues no request |
| `App.FailureScenario` | App.js:171-175 | an upstream failure shows `TMDb API Error: <status message>`, with zero results, no pagination bar, and page 1 of 1 |

## Left out

- Rendering is not modelled: JSX, the embedded CSS, the poster placeholder SVG, icons, loading cards, the status line and the rating chip (`vote_average.toFixed(1)` is floating point).
- The network is not modelled: `axios.get`, `fetch` and JSON parsing become the `UpstreamOutcome` and `Reply` parameters.
- A listing body that is not an object is not modelled. A `null` body makes the read of `total_pages` throw a TypeError, which gives a 500 carrying that TypeError's message; a string, number or boolean body ignores the write (server.js is not in strict mode) and is relayed unchanged with 200.
- Express routing is not modelled: each handler receives the `:category` path parameter and the parsed query directly. Nor is the rest of the wiring: CORS, JSON middleware, `app.listen`, the generic error middleware, environment lookup and console logging.
- The health endpoint is not modelled. It makes no upstream request, and its only varying content is the clock.
- App.QueryOf: its contract names the keys only; the values are stated for the two requests the browser builds, in the contracts of App.CategoryRequest and App.SearchRequest. A repeated name keeps its last value, where the query parser would make an array; the browser never repeats one. The percent-encoding round trip, which gives back the text unchanged, is not modelled.
- Express query values are modelled as strings. Arrays and nested objects, which the query parser can also produce, are not modelled.
- A listing body holds only `results`, `page` and `total_pages`. Other fields pass through unchanged and are not represented.
- `total_pages` and `page` are unbounded integers. NaN and fractional values are not modelled, nor is the loss of precision of JavaScript numbers above 2^53 (where `currentPage + 1` equals `currentPage`), nor the exponent notation `String(n)` uses from 10^21 on; the contracts of App.MovieBrowser.PressNext ("the page after") and Js.IntToDecimal hold for numbers below those bounds.
- App.QueryString: joins `key=value` pairs with `&` without the percent-encoding that `URLSearchParams` applies.
- App.CardYear: counts Unicode characters where `slice` counts UTF-16 code units. The two differ only for characters outside the Basic Multilingual Plane.
- App.MovieBrowser.Complete: requires the fetch to be in progress. This is the one-outstanding-request model. Overlapping fetches whose replies arrive out of order are concurrency and are not modelled.
- App.MovieBrowser.HandleReset: runs `loadCategory` before clearing the two queries. React batches the three updates, so their order is not observable, and this order keeps the invariant between steps.
- React hook scheduling (`useCallback`, `useEffect` dependencies) is not modelled. Mounting is the one `Mount` call.
