/** The catalogue records exchanged with the movie API (`src/types/movie.ts`),
    reduced to the fields the modelled logic reads, and the "best match for a
    title" rule that both movie clients apply to a page of search results. */
module MovieTypes {

  import opened Common
  import opened Text

  datatype Movie = Movie(
    id: int,
    title: string,
    overview: string,
    releaseDate: string,
    genreIds: seq<int>)

  datatype MovieDetails = MovieDetails(movie: Movie, runtime: Option<int>, status: string)

  datatype TvSeries = TvSeries(id: int, name: string)

  /** One page of a paged listing (`TMDBResponse<T>`). */
  datatype Page<T> = Page(page: int, results: seq<T>, totalPages: int, totalResults: int)

  /** `TMDBApiResponse<T>`: what the API client resolves to. */
  datatype ApiResponse<T> = ApiResponse(success: bool, data: Option<T>, error: Option<string>, status: Option<int>)

  /** An awaited call into the API client: the response it resolved to, or the
      `message` of what it threw (missing when the thrown value has none). */
  datatype ApiCall<T> = Answered(response: ApiResponse<T>) | Rejected(message: Option<string>)

  /** How the stores read an awaited call: `success && data` gives the data;
      otherwise `response.error || fallback`, or `err.message || fallback` when it threw. */
  function Settle<T>(call: ApiCall<T>, fallback: string): (r: Result<T, string>)
    ensures r.Ok? <==> call.Answered? && call.response.success && call.response.data.Some?
    ensures r.Ok? ==> r.value == call.response.data.value
    ensures r.Err? && call.Answered? ==> r.error == OrElse(call.response.error, fallback)
    ensures call.Rejected? ==> r.error == OrElse(call.message, fallback)
  {
    match call
    case Answered(response) =>
      if response.success && response.data.Some? then Ok(response.data.value)
      else Err(OrElse(response.error, fallback))
    case Rejected(message) => Err(OrElse(message, fallback))
  }

  /** `movies.map(m => m.id)` */
  function Ids(movies: seq<Movie>): (ids: seq<int>)
    ensures |ids| == |movies|
    ensures forall i :: 0 <= i < |movies| ==> ids[i] == movies[i].id
  {
    seq(|movies|, i requires 0 <= i < |movies| => movies[i].id)
  }

  /** The page both clients answer with for a blank query, without a request. */
  function EmptySearchPage(): (p: Page<Movie>)
    ensures p.page == 1 && p.results == [] && p.totalPages == 0 && p.totalResults == 0
  {
    Page(1, [], 0, 0)
  }

  /** Titles are compared after lower-casing both sides. */
  predicate TitleMatches(m: Movie, title: string) {
    Lower(m.title) == Lower(title)
  }

  /** Index of the first result whose title matches (`Array.prototype.find`). */
  function FirstExactMatch(results: seq<Movie>, title: string): (r: Option<nat>)
    ensures r.Some? ==> r.value < |results| && TitleMatches(results[r.value], title)
    ensures r.Some? ==> forall j :: 0 <= j < r.value ==> !TitleMatches(results[j], title)
    ensures r.None? ==> forall j :: 0 <= j < |results| ==> !TitleMatches(results[j], title)
  {
    if |results| == 0 then None
    else if TitleMatches(results[0], title) then Some(0)
    else match FirstExactMatch(results[1..], title)
      case None => None
      case Some(i) => Some(i + 1)
  }

  /** `exactMatch || results[0] || null`: the first case-insensitive exact title match,
      otherwise the first result, otherwise nothing. */
  function BestTitleMatch(results: seq<Movie>, title: string): (r: Option<Movie>)
    ensures r.None? <==> |results| == 0
    ensures forall i :: 0 <= i < |results| && TitleMatches(results[i], title) &&
                        (forall j :: 0 <= j < i ==> !TitleMatches(results[j], title))
                        ==> r == Some(results[i])
    ensures (forall i :: 0 <= i < |results| ==> !TitleMatches(results[i], title)) && |results| > 0
            ==> r == Some(results[0])
  {
    match FirstExactMatch(results, title)
    case Some(i) => Some(results[i])
    case None => if |results| > 0 then Some(results[0]) else None
  }
}
