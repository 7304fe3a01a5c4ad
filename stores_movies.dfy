/** The movies store (`useMoviesStore` in src/stores/movies.ts): the popular list and
    the search results with their paging counters, the loading flags, the last
    error, and a cache of movie details by id. Each API call is a parameter holding
    what the awaited call resolved to; each action returns the request it sent. */
module MoviesStore {

  import opened Common
  import opened Text
  import opened MovieTypes

  const PopularFailed: string := "Failed to load popular movies"
  const SearchFailed: string := "Failed to search movies"
  const DetailsFailed: string := "Failed to load movie details"

  /** A request sent to the API client. */
  datatype Request = PopularPage(page: int) | SearchPage(query: string, page: int) | DetailsOf(movieId: int)

  /** Every field of the store, so that a contract can state the whole new state. */
  datatype MoviesState = MoviesState(
    popularMovies: seq<Movie>,
    searchResults: seq<Movie>,
    movieDetails: Option<MovieDetails>,
    currentPage: int,
    totalPages: int,
    totalResults: int,
    searchQuery: string,
    loading: bool,
    loadingMore: bool,
    loadingDetails: bool,
    error: Option<string>,
    detailsCache: map<int, MovieDetails>)

  /** The list a load starts from: kept when appending, emptied otherwise. */
  function Base(list: seq<Movie>, append: bool): (r: seq<Movie>)
    ensures append ==> r == list
    ensures !append ==> r == []
  {
    if append then list else []
  }

  /** `isSearching`: the query has something besides white space. */
  function IsSearchingQuery(query: string): (b: bool)
    ensures b <==> !IsBlank(query)
  {
    TrimEmptyIffBlank(query);
    |Trim(query)| > 0
  }

  /** The first movie with the id, looking at `first` before `second`
      (`[...first, ...second].find(...)`). */
  function FindIn(first: seq<Movie>, second: seq<Movie>, movieId: int): (r: Option<Movie>)
    ensures r.Some? ==> r.value.id == movieId && (r.value in first || r.value in second)
    ensures r.None? ==> forall m :: m in first + second ==> m.id != movieId
    ensures (exists i :: 0 <= i < |first| && first[i].id == movieId) ==> r.Some? && r.value in first
  {
    if |first| > 0 then
      if first[0].id == movieId then Some(first[0]) else FindIn(first[1..], second, movieId)
    else if |second| > 0 then
      if second[0].id == movieId then Some(second[0]) else FindIn([], second[1..], movieId)
    else None
  }

  /** A match among the popular movies always wins over one among the search
      results: the result is the first popular movie with the id. */
  lemma {:induction false} FindInPrefersFirst(first: seq<Movie>, second: seq<Movie>, movieId: int, i: nat)
    requires i < |first| && first[i].id == movieId
    requires forall j :: 0 <= j < i ==> first[j].id != movieId
    ensures FindIn(first, second, movieId) == Some(first[i])
  {
    if i > 0 {
      FindInPrefersFirst(first[1..], second, movieId, i - 1);
    }
  }

  /** The store after `loadPopularMovies(page, append)` read the outcome `o`: the
      error is cleared first and a replacing load empties the list; a success then
      puts the page's results in, or after, the list and copies the paging counters,
      a failure records its message. Both flags end up cleared. */
  function PopularLoaded(s: MoviesState, append: bool, o: Result<Page<Movie>, string>): MoviesState {
    if o.Ok? then
      s.(popularMovies := Base(s.popularMovies, append) + o.value.results,
         currentPage := o.value.page, totalPages := o.value.totalPages,
         totalResults := o.value.totalResults, error := None,
         loading := false, loadingMore := false)
    else
      s.(popularMovies := Base(s.popularMovies, append),
         error := Some(o.error), loading := false, loadingMore := false)
  }

  /** The store after `searchMovies(query, page, append)` for a non-blank query read
      the outcome `o`: as a popular load, on the search results, and the query is
      remembered. */
  function Searched(s: MoviesState, query: string, append: bool, o: Result<Page<Movie>, string>): MoviesState {
    if o.Ok? then
      s.(searchResults := Base(s.searchResults, append) + o.value.results, searchQuery := query,
         currentPage := o.value.page, totalPages := o.value.totalPages,
         totalResults := o.value.totalResults, error := None,
         loading := false, loadingMore := false)
    else
      s.(searchResults := Base(s.searchResults, append), searchQuery := query,
         error := Some(o.error), loading := false, loadingMore := false)
  }

  /** `clearSearchResults`: no results, no query, and the counters back to one page. */
  function Cleared(s: MoviesState): MoviesState {
    s.(searchResults := [], searchQuery := "", currentPage := 1, totalPages := 1, totalResults := 0)
  }

  /** Appending a page never drops what is loaded: the list being paged keeps its
      earlier entries as a prefix, and the other list is untouched. */
  lemma AppendedPopularKeepsLoaded(s: MoviesState, o: Result<Page<Movie>, string>)
    ensures var r := PopularLoaded(s, true, o);
            |s.popularMovies| <= |r.popularMovies| && r.popularMovies[..|s.popularMovies|] == s.popularMovies &&
            r.searchResults == s.searchResults && r.searchQuery == s.searchQuery
  {
    if o.Ok? {
      assert (s.popularMovies + o.value.results)[..|s.popularMovies|] == s.popularMovies;
    }
  }

  lemma AppendedSearchKeepsLoaded(s: MoviesState, query: string, o: Result<Page<Movie>, string>)
    ensures var r := Searched(s, query, true, o);
            |s.searchResults| <= |r.searchResults| && r.searchResults[..|s.searchResults|] == s.searchResults &&
            r.popularMovies == s.popularMovies
  {
    if o.Ok? {
      assert (s.searchResults + o.value.results)[..|s.searchResults|] == s.searchResults;
    }
  }

  /** A replacing load starts over: after a success the list is exactly the page's
      results and the error is cleared; after a failure the list is empty and the
      error is the failure's message. */
  lemma ReplacingLoadStartsOver(s: MoviesState, query: string, o: Result<Page<Movie>, string>)
    ensures o.Ok? ==> PopularLoaded(s, false, o).popularMovies == o.value.results && PopularLoaded(s, false, o).error.None? &&
                      Searched(s, query, false, o).searchResults == o.value.results && Searched(s, query, false, o).error.None?
    ensures o.Err? ==> PopularLoaded(s, false, o).popularMovies == [] && PopularLoaded(s, false, o).error == Some(o.error) &&
                       Searched(s, query, false, o).searchResults == [] && Searched(s, query, false, o).error == Some(o.error)
  {
  }

  class MoviesStore {
    var popularMovies: seq<Movie>
    var searchResults: seq<Movie>
    var movieDetails: Option<MovieDetails>
    var currentPage: int
    var totalPages: int
    var totalResults: int
    var searchQuery: string
    var loading: bool
    var loadingMore: bool
    var loadingDetails: bool
    var error: Option<string>
    var detailsCache: map<int, MovieDetails>

    ghost function State(): MoviesState
      reads this
    {
      MoviesState(popularMovies, searchResults, movieDetails, currentPage, totalPages, totalResults,
                  searchQuery, loading, loadingMore, loadingDetails, error, detailsCache)
    }

    constructor ()
      ensures State() == MoviesState([], [], None, 1, 1, 0, "", false, false, false, None, map[])
    {
      popularMovies := [];
      searchResults := [];
      movieDetails := None;
      currentPage := 1;
      totalPages := 1;
      totalResults := 0;
      searchQuery := "";
      loading := false;
      loadingMore := false;
      loadingDetails := false;
      error := None;
      detailsCache := map[];
    }

    /** `hasPopularMovies` */
    function HasPopularMovies(): (b: bool)
      reads this
      ensures b <==> popularMovies != []
    {
      |popularMovies| > 0
    }

    /** `hasSearchResults` */
    function HasSearchResults(): (b: bool)
      reads this
      ensures b <==> searchResults != []
    {
      |searchResults| > 0
    }

    /** `canLoadMore` */
    function CanLoadMore(): (b: bool)
      reads this
      ensures b <==> currentPage < totalPages
    {
      currentPage < totalPages
    }

    /** `isSearching` */
    function IsSearching(): (b: bool)
      reads this
      ensures b <==> !IsBlank(searchQuery)
    {
      IsSearchingQuery(searchQuery)
    }

    /** `getCurrentMovies`: the search results while searching, else the popular list. */
    function GetCurrentMovies(): (r: seq<Movie>)
      reads this
      ensures !IsBlank(searchQuery) ==> r == searchResults
      ensures IsBlank(searchQuery) ==> r == popularMovies
    {
      if IsSearching() then searchResults else popularMovies
    }

    /** `findMovieById`: the first movie with the id, popular movies first. */
    function FindMovieById(movieId: int): (r: Option<Movie>)
      reads this
      ensures r.Some? ==> r.value.id == movieId && (r.value in popularMovies || r.value in searchResults)
      ensures r.None? ==> forall m :: m in popularMovies + searchResults ==> m.id != movieId
    {
      FindIn(popularMovies, searchResults, movieId)
    }

    /** `loadPopularMovies(page, append)`: on success the results replace the list, or
        are appended to it, and the paging counters are copied from the response; on
        failure the error is recorded and a replacing load leaves the list empty.
        Both loading flags are cleared in the end. */
    method LoadPopularMovies(page: int, append: bool, call: ApiCall<Page<Movie>>) returns (sent: Request)
      modifies this
      ensures sent == PopularPage(page)
      ensures State() == PopularLoaded(old(State()), append, Settle(call, PopularFailed))
    {
      BeginPopularLoad(append);
      sent := PopularPage(page);
      ReceivePopularPage(Settle(call, PopularFailed), append);
    }

    /** The part of the action before the request: the flag for the kind of load is
        raised, a replacing load empties the list, the error is cleared. */
    method BeginPopularLoad(append: bool)
      modifies this
      ensures State() == old(State()).(popularMovies := Base(old(popularMovies), append), error := None,
                                       loading := !append || old(loading), loadingMore := append || old(loadingMore))
    {
      if !append {
        loading := true;
        popularMovies := [];
      } else {
        loadingMore := true;
      }
      error := None;
    }

    /** The part after the response: the results and paging counters of a page, or
        the error; both loading flags are cleared in the end. */
    method ReceivePopularPage(outcome: Result<Page<Movie>, string>, append: bool)
      modifies this
      ensures outcome.Ok? ==>
                State() == old(State()).(popularMovies := if append then old(popularMovies) + outcome.value.results else outcome.value.results,
                                         currentPage := outcome.value.page, totalPages := outcome.value.totalPages,
                                         totalResults := outcome.value.totalResults, loading := false, loadingMore := false)
      ensures outcome.Err? ==>
                State() == old(State()).(error := Some(outcome.error), loading := false, loadingMore := false)
    {
      if outcome.Ok? {
        var data := outcome.value;
        if append {
          popularMovies := popularMovies + data.results;
        } else {
          popularMovies := data.results;
        }
        currentPage := data.page;
        totalPages := data.totalPages;
        totalResults := data.totalResults;
      } else {
        error := Some(outcome.error);
      }
      loading := false;
      loadingMore := false;
    }

    /** `clearSearchResults` */
    method ClearSearchResults()
      modifies this
      ensures State() == Cleared(old(State()))
      ensures !IsSearching() && !CanLoadMore()
    {
      searchResults := [];
      searchQuery := "";
      currentPage := 1;
      totalPages := 1;
      totalResults := 0;
    }

    /** `searchMovies(query, page, append)`: a blank query only clears the search and
        sends nothing; otherwise it behaves as the popular load does, on the search
        results, and remembers the query. */
    method SearchMovies(query: string, page: int, append: bool, call: ApiCall<Page<Movie>>) returns (sent: Option<Request>)
      modifies this
      ensures IsBlank(query) ==> sent == None && State() == Cleared(old(State()))
      ensures !IsBlank(query) ==>
                sent == Some(SearchPage(query, page)) &&
                State() == Searched(old(State()), query, append, Settle(call, SearchFailed))
    {
      if !IsSearchingQuery(query) {
        ClearSearchResults();
        return None;
      }
      var request := FetchSearchPage(query, page, append, call);
      sent := Some(request);
    }

    /** The request part of `searchMovies`, for a query that is not blank. */
    method FetchSearchPage(query: string, page: int, append: bool, call: ApiCall<Page<Movie>>) returns (sent: Request)
      modifies this
      ensures sent == SearchPage(query, page)
      ensures State() == Searched(old(State()), query, append, Settle(call, SearchFailed))
    {
      BeginSearch(query, append);
      sent := SearchPage(query, page);
      ReceiveSearchPage(Settle(call, SearchFailed), append);
    }

    /** The part of the action before the request: the flag for the kind of load is
        raised, a replacing load empties the list, the error is cleared and the query remembered. */
    method BeginSearch(query: string, append: bool)
      modifies this
      ensures State() == old(State()).(searchResults := Base(old(searchResults), append), searchQuery := query, error := None,
                                       loading := !append || old(loading), loadingMore := append || old(loadingMore))
    {
      if !append {
        loading := true;
        searchResults := [];
      } else {
        loadingMore := true;
      }
      error := None;
      searchQuery := query;
    }

    /** The part after the response: the results and paging counters of a page, or
        the error; both loading flags are cleared in the end. */
    method ReceiveSearchPage(outcome: Result<Page<Movie>, string>, append: bool)
      modifies this
      ensures outcome.Ok? ==>
                State() == old(State()).(searchResults := if append then old(searchResults) + outcome.value.results else outcome.value.results,
                                         currentPage := outcome.value.page, totalPages := outcome.value.totalPages,
                                         totalResults := outcome.value.totalResults, loading := false, loadingMore := false)
      ensures outcome.Err? ==>
                State() == old(State()).(error := Some(outcome.error), loading := false, loadingMore := false)
    {
      if outcome.Ok? {
        var data := outcome.value;
        if append {
          searchResults := searchResults + data.results;
        } else {
          searchResults := data.results;
        }
        currentPage := data.page;
        totalPages := data.totalPages;
        totalResults := data.totalResults;
      } else {
        error := Some(outcome.error);
      }
      loading := false;
      loadingMore := false;
    }

    /** `loadMovieDetails(movieId)`: a cached id is served without a request; a fetched
        record is cached only when the request succeeded. */
    method LoadMovieDetails(movieId: int, call: ApiCall<MovieDetails>) returns (r: Option<MovieDetails>, sent: Option<Request>)
      modifies this
      ensures movieId in old(detailsCache) ==>
                r == Some(old(detailsCache)[movieId]) && sent == None &&
                State() == old(State()).(movieDetails := r)
      ensures movieId !in old(detailsCache) ==>
                sent == Some(DetailsOf(movieId)) &&
                var o := Settle(call, DetailsFailed);
                if o.Ok? then
                  r == Some(o.value) &&
                  State() == old(State()).(detailsCache := old(detailsCache)[movieId := o.value],
                                           movieDetails := r, error := None, loadingDetails := false)
                else
                  r == None &&
                  State() == old(State()).(error := Some(o.error), loadingDetails := false)
      ensures r.Some? ==> movieId in detailsCache && detailsCache[movieId] == r.value
    {
      if movieId in detailsCache {
        var cached := detailsCache[movieId];
        movieDetails := Some(cached);
        return Some(cached), None;
      }
      loadingDetails := true;
      error := None;
      sent := Some(DetailsOf(movieId));
      var outcome := Settle(call, DetailsFailed);
      if outcome.Ok? {
        detailsCache := detailsCache[movieId := outcome.value];
        movieDetails := Some(outcome.value);
        r := Some(outcome.value);
      } else {
        error := Some(outcome.error);
        r := None;
      }
      loadingDetails := false;
    }

    /** `loadMoreMovies`: nothing happens when there is no next page or a page is
        already being appended; otherwise the next page is requested in append mode,
        from the search when searching and from the popular list otherwise. */
    method LoadMoreMovies(call: ApiCall<Page<Movie>>) returns (sent: Option<Request>)
      modifies this
      ensures !old(CanLoadMore()) || old(loadingMore) ==> sent == None && State() == old(State())
      ensures old(CanLoadMore()) && !old(loadingMore) && old(IsSearching()) ==>
                sent == Some(SearchPage(old(searchQuery), old(currentPage) + 1)) &&
                State() == Searched(old(State()), old(searchQuery), true, Settle(call, SearchFailed))
      ensures old(CanLoadMore()) && !old(loadingMore) && !old(IsSearching()) ==>
                sent == Some(PopularPage(old(currentPage) + 1)) &&
                State() == PopularLoaded(old(State()), true, Settle(call, PopularFailed))
    {
      if !CanLoadMore() || loadingMore {
        return None;
      }
      var nextPage := currentPage + 1;
      if IsSearching() {
        sent := SearchMovies(searchQuery, nextPage, true, call);
      } else {
        var request := LoadPopularMovies(nextPage, true, call);
        sent := Some(request);
      }
    }

    /** `clearError` */
    method ClearError()
      modifies this
      ensures State() == old(State()).(error := None)
    {
      error := None;
    }

    /** `refreshData`: reloads the first page of the active list. */
    method RefreshData(call: ApiCall<Page<Movie>>) returns (sent: Option<Request>)
      modifies this
      ensures old(IsSearching()) ==>
                sent == Some(SearchPage(old(searchQuery), 1)) &&
                State() == Searched(old(State()), old(searchQuery), false, Settle(call, SearchFailed))
      ensures !old(IsSearching()) ==>
                sent == Some(PopularPage(1)) &&
                State() == PopularLoaded(old(State()), false, Settle(call, PopularFailed))
    {
      if IsSearching() {
        sent := SearchMovies(searchQuery, 1, false, call);
      } else {
        var request := LoadPopularMovies(1, false, call);
        sent := Some(request);
      }
    }
  }
}
