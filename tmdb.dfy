/** The JSON shapes the proxy relays from the movie metadata source (TMDb)
    and the browser reads, and the fixed set of listing categories. */
module Tmdb {
  import opened Js

  /** The listing categories the proxy accepts and the browser's selector offers. */
  const Categories: seq<string> := ["popular", "top_rated", "now_playing", "upcoming"]

  /** A movie as the upstream returns it; only the fields the card reads are modelled. */
  datatype Movie = Movie(
    id: int,
    title: Option<string>,
    name: Option<string>,
    releaseDate: Option<string>)

  /** A page of results: `results`, `page` and `total_pages`, each possibly missing. */
  datatype Listing = Listing(
    results: Option<seq<Movie>>,
    page: Option<int>,
    totalPages: Option<int>)
}
