/** The TV-series store (`useTVStore` in src/stores/tv.ts): the list on screen, the
    popular list and the search results, with paging counters, loading flags, the
    last error and the last action. Each API call is a parameter holding what the
    awaited call resolved to; each action returns the request it sent. */
module TvStore {

  import opened Common
  import opened Text
  import opened MovieTypes

  const PageSize: nat := 20
  const PopularFailed: string := "Failed to load popular TV series"
  const SearchFailed: string := "Search failed"

  datatype LastAction = Popular | Search | Trending | TopRated

  /** A request sent to the API client. */
  datatype Request = PopularPage(page: int) | SearchPage(query: string, page: int)

  /** Every field of the store, so that a contract can state the whole new state. */
  datatype TvState = TvState(
    currentSeries: seq<TvSeries>,
    popularSeries: seq<TvSeries>,
    searchResults: seq<TvSeries>,
    loading: bool,
    loadingMore: bool,
    error: Option<string>,
    searchQuery: string,
    currentPage: int,
    totalPages: int,
    totalResults: int,
    lastAction: LastAction)

  /** The state the store starts in, and the one `clearAllData` restores. */
  const Initial: TvState := TvState([], [], [], false, false, None, "", 1, 0, 0, Popular)

  /** How this store reads an awaited call: the data of a successful response; the
      message of the error it throws itself for a failed one (`response.error` or
      the fallback); or the `message` of what the call threw, which may be missing. */
  function Caught<T>(call: ApiCall<T>, fallback: string): (r: Result<T, Option<string>>)
    ensures r.Ok? <==> Settle(call, fallback).Ok?
    ensures r.Ok? ==> r.value == Settle(call, fallback).value
    ensures r.Err? && call.Answered? ==> r.error == Some(Settle(call, fallback).error)
    ensures call.Rejected? ==> r.error == call.message
  {
    match call
    case Answered(response) =>
      if response.success && response.data.Some? then Ok(response.data.value)
      else Err(Some(OrElse(response.error, fallback)))
    case Rejected(message) => Err(message)
  }

  /** `Math.ceil(n / size)` for a count of items. */
  function CeilDiv(n: nat, size: nat): (r: nat)
    requires size > 0
    ensures r * size >= n
    ensures r > 0 ==> (r - 1) * size < n
    ensures r == 0 <==> n == 0
  {
    (n + size - 1) / size
  }

  /** The page the store reports after returning to the popular list. */
  function PagesOf(n: nat): (r: nat)
    ensures r == CeilDiv(n, PageSize)
  {
    CeilDiv(n, PageSize)
  }

  /** The store after `loadPopularTVSeries(page)` read the outcome `o`: page 1 replaces
      the popular and the shown list, a later page appends to both; a failure on page
      1 empties both lists and the total, a failure on a later page keeps them. Page 1
      clears the error first; both flags end up cleared. */
  function PopularLoaded(s: TvState, page: int, o: Result<Page<TvSeries>, Option<string>>): TvState {
    if o.Ok? then
      var got := o.value.results;
      s.(popularSeries := if page == 1 then got else s.popularSeries + got,
         currentSeries := if page == 1 then got else s.currentSeries + got,
         currentPage := o.value.page, totalPages := o.value.totalPages,
         totalResults := o.value.totalResults, lastAction := Popular,
         error := if page == 1 then None else s.error,
         loading := false, loadingMore := false)
    else
      s.(popularSeries := if page == 1 then [] else s.popularSeries,
         currentSeries := if page == 1 then [] else s.currentSeries,
         totalResults := if page == 1 then 0 else s.totalResults,
         error := o.error, loading := false, loadingMore := false)
  }

  /** The store after a search for a non-blank `query` read the outcome `o`: as a
      popular load, on the search results; page 1 also records the query. */
  function Searched(s: TvState, query: string, page: int, o: Result<Page<TvSeries>, Option<string>>): TvState {
    if o.Ok? then
      var got := o.value.results;
      s.(searchResults := if page == 1 then got else s.searchResults + got,
         currentSeries := if page == 1 then got else s.currentSeries + got,
         searchQuery := if page == 1 then query else s.searchQuery,
         currentPage := o.value.page, totalPages := o.value.totalPages,
         totalResults := o.value.totalResults, lastAction := Search,
         error := if page == 1 then None else s.error,
         loading := false, loadingMore := false)
    else
      s.(searchResults := if page == 1 then [] else s.searchResults,
         currentSeries := if page == 1 then [] else s.currentSeries,
         searchQuery := if page == 1 then query else s.searchQuery,
         totalResults := if page == 1 then 0 else s.totalResults,
         error := o.error, loading := false, loadingMore := false)
  }

  /** `clearSearchResults`: back to the popular list, with the page counters derived
      from its length (20 per page). */
  function Cleared(s: TvState): TvState {
    var n := |s.popularSeries|;
    s.(searchQuery := "", searchResults := [], currentSeries := s.popularSeries,
       currentPage := if PagesOf(n) == 0 then 1 else PagesOf(n),
       totalPages := PagesOf(n), totalResults := n, lastAction := Popular, error := None)
  }

  /** A search for a blank query: the cleared state, with both flags cleared by the
      action's `finally`. */
  function BlankSearched(s: TvState): TvState {
    Cleared(s).(loading := false, loadingMore := false)
  }

  /** Loading a later page never drops what is shown: the shown list and the list
      being paged keep their earlier entries as a prefix, and the other list is
      untouched. */
  lemma LaterPopularPageKeepsShown(s: TvState, page: int, o: Result<Page<TvSeries>, Option<string>>)
    requires page != 1
    ensures var r := PopularLoaded(s, page, o);
            |s.currentSeries| <= |r.currentSeries| && r.currentSeries[..|s.currentSeries|] == s.currentSeries &&
            |s.popularSeries| <= |r.popularSeries| && r.popularSeries[..|s.popularSeries|] == s.popularSeries &&
            r.searchResults == s.searchResults && r.searchQuery == s.searchQuery
  {
    if o.Ok? {
      assert (s.currentSeries + o.value.results)[..|s.currentSeries|] == s.currentSeries;
      assert (s.popularSeries + o.value.results)[..|s.popularSeries|] == s.popularSeries;
    }
  }

  lemma LaterSearchPageKeepsShown(s: TvState, query: string, page: int, o: Result<Page<TvSeries>, Option<string>>)
    requires page != 1
    ensures var r := Searched(s, query, page, o);
            |s.currentSeries| <= |r.currentSeries| && r.currentSeries[..|s.currentSeries|] == s.currentSeries &&
            |s.searchResults| <= |r.searchResults| && r.searchResults[..|s.searchResults|] == s.searchResults &&
            r.popularSeries == s.popularSeries && r.searchQuery == s.searchQuery
  {
    if o.Ok? {
      assert (s.currentSeries + o.value.results)[..|s.currentSeries|] == s.currentSeries;
      assert (s.searchResults + o.value.results)[..|s.searchResults|] == s.searchResults;
    }
  }

  /** A retry starts over: after a successful first page the shown list is exactly
      that page, and the error is cleared; after a failed one it is empty. */
  lemma FirstPageStartsOver(s: TvState, query: string, o: Result<Page<TvSeries>, Option<string>>)
    ensures o.Ok? ==> PopularLoaded(s, 1, o).currentSeries == o.value.results == PopularLoaded(s, 1, o).popularSeries &&
                      PopularLoaded(s, 1, o).error.None?
    ensures o.Ok? ==> Searched(s, query, 1, o).currentSeries == o.value.results == Searched(s, query, 1, o).searchResults &&
                      Searched(s, query, 1, o).error.None? && Searched(s, query, 1, o).searchQuery == query
    ensures o.Err? ==> PopularLoaded(s, 1, o).currentSeries == [] && Searched(s, query, 1, o).currentSeries == [] &&
                       PopularLoaded(s, 1, o).error == o.error == Searched(s, query, 1, o).error
  {
  }

  class TvStore {
    var currentSeries: seq<TvSeries>
    var popularSeries: seq<TvSeries>
    var searchResults: seq<TvSeries>
    var loading: bool
    var loadingMore: bool
    var error: Option<string>
    var searchQuery: string
    var currentPage: int
    var totalPages: int
    var totalResults: int
    var lastAction: LastAction

    ghost function State(): TvState
      reads this
    {
      TvState(currentSeries, popularSeries, searchResults, loading, loadingMore, error, searchQuery,
              currentPage, totalPages, totalResults, lastAction)
    }

    constructor ()
      ensures State() == Initial
    {
      currentSeries := [];
      popularSeries := [];
      searchResults := [];
      loading := false;
      loadingMore := false;
      error := None;
      searchQuery := "";
      currentPage := 1;
      totalPages := 0;
      totalResults := 0;
      lastAction := Popular;
    }

    /** `getCurrentSeries` */
    function GetCurrentSeries(): (r: seq<TvSeries>)
      reads this
      ensures r == currentSeries
    {
      currentSeries
    }

    /** `isSearching`: any query at all, white space included. */
    function IsSearching(): (b: bool)
      reads this
      ensures b <==> searchQuery != ""
    {
      |searchQuery| > 0
    }

    /** `hasPopularSeries` */
    function HasPopularSeries(): (b: bool)
      reads this
      ensures b <==> popularSeries != []
    {
      |popularSeries| > 0
    }

    /** `canLoadMore`: idle and not on the last page. */
    function CanLoadMore(): (b: bool)
      reads this
      ensures b <==> !loading && !loadingMore && currentPage < totalPages
    {
      !loading && !loadingMore && currentPage < totalPages
    }

    /** `loadPopularTVSeries(page)`: page 1 replaces both the popular and the shown
        list, a later page appends to both; a failure on page 1 empties both lists and
        the total, a failure on a later page keeps them. The flags end up cleared. */
    method LoadPopularTvSeries(page: int, call: ApiCall<Page<TvSeries>>) returns (sent: Request)
      modifies this
      ensures sent == PopularPage(page)
      ensures State() == PopularLoaded(old(State()), page, Caught(call, PopularFailed))
    {
      BeginPopularLoad(page);
      sent := PopularPage(page);
      ReceivePopularPage(page, Caught(call, PopularFailed));
    }

    /** Before the request: page 1 raises `loading`, clears the error and empties the
        shown list; a later page raises `loadingMore`. */
    method BeginPopularLoad(page: int)
      modifies this
      ensures page == 1 ==> State() == old(State()).(loading := true, error := None, currentSeries := [])
      ensures page != 1 ==> State() == old(State()).(loadingMore := true)
    {
      if page == 1 {
        loading := true;
        error := None;
        currentSeries := [];
      } else {
        loadingMore := true;
      }
    }

    /** After the response of a popular load. */
    method ReceivePopularPage(page: int, outcome: Result<Page<TvSeries>, Option<string>>)
      modifies this
      ensures outcome.Ok? ==>
                var got := outcome.value.results;
                State() == old(State()).(
                  popularSeries := if page == 1 then got else old(popularSeries) + got,
                  currentSeries := if page == 1 then got else old(currentSeries) + got,
                  currentPage := outcome.value.page, totalPages := outcome.value.totalPages,
                  totalResults := outcome.value.totalResults, lastAction := Popular,
                  loading := false, loadingMore := false)
      ensures outcome.Err? ==>
                State() == old(State()).(
                  popularSeries := if page == 1 then [] else old(popularSeries),
                  currentSeries := if page == 1 then [] else old(currentSeries),
                  totalResults := if page == 1 then 0 else old(totalResults),
                  error := outcome.error, loading := false, loadingMore := false)
    {
      if outcome.Ok? {
        var newSeries := outcome.value.results;
        if page == 1 {
          popularSeries := newSeries;
          currentSeries := newSeries;
        } else {
          popularSeries := popularSeries + newSeries;
          currentSeries := currentSeries + newSeries;
        }
        currentPage := outcome.value.page;
        totalPages := outcome.value.totalPages;
        totalResults := outcome.value.totalResults;
        lastAction := Popular;
      } else {
        error := outcome.error;
        if page == 1 {
          currentSeries := [];
          popularSeries := [];
          totalResults := 0;
        }
      }
      loading := false;
      loadingMore := false;
    }

    /** `clearSearchResults`: back to the popular list, with the page counters derived
        from its length (20 per page), so that no further page can be loaded. */
    method ClearSearchResults()
      modifies this
      ensures State() == Cleared(old(State()))
      ensures currentPage >= totalPages && !CanLoadMore() && !IsSearching()
    {
      var pages := CeilDiv(|popularSeries|, PageSize);
      searchQuery := "";
      searchResults := [];
      currentSeries := popularSeries;
      currentPage := if pages == 0 then 1 else pages;
      totalPages := pages;
      totalResults := |popularSeries|;
      lastAction := Popular;
      error := None;
    }

    /** `searchTVSeries(query, page)` as the store evidently intends it: a blank query
        returns to the popular list; otherwise the results of the search call are
        shown like a popular load's, under the query, and the last action becomes a
        search. The flags end up cleared on every path. */
    method SearchTvSeries(query: string, page: int, call: ApiCall<Page<TvSeries>>) returns (sent: Option<Request>)
      modifies this
      ensures IsBlank(query) ==> sent == None && State() == BlankSearched(old(State()))
      ensures !IsBlank(query) ==>
                sent == Some(SearchPage(query, page)) &&
                State() == Searched(old(State()), query, page, Caught(call, SearchFailed))
    {
      TrimEmptyIffBlank(query);
      if |Trim(query)| == 0 {
        ClearSearchResults();
        loading := false;
        loadingMore := false;
        return None;
      }
      BeginSearch(query, page);
      sent := Some(SearchPage(query, page));
      ReceiveSearchPage(page, Caught(call, SearchFailed));
    }

    /** `searchTVSeries(query, page)` as written: inside the store the name refers to
        the action itself, so the awaited call is the action calling itself with the
        same arguments, which never returns a response and only ends when the stack
        overflows. No request is sent. Only the innermost call catches the overflow;
        every call around it then reads `.success` of the `undefined` the inner call
        resolved to and catches that TypeError, so the store is left as after a failed
        search whose error is the message `caught` of what the outermost call caught. */
    method SearchTvSeriesAsWritten(query: string, page: int, caught: Option<string>) returns (sent: Option<Request>)
      modifies this
      ensures sent == None
      ensures IsBlank(query) ==> State() == BlankSearched(old(State()))
      ensures !IsBlank(query) ==> State() == Searched(old(State()), query, page, Err(caught))
      ensures !IsBlank(query) && page == 1 ==> currentSeries == [] && searchResults == [] && totalResults == 0
    {
      TrimEmptyIffBlank(query);
      if |Trim(query)| == 0 {
        ClearSearchResults();
        loading := false;
        loadingMore := false;
        return None;
      }
      BeginSearch(query, page);
      ReceiveSearchPage(page, Err(caught));
      sent := None;
    }

    /** Before the search request: page 1 raises `loading`, clears the error, records
        the query and empties the shown list; a later page raises `loadingMore`. */
    method BeginSearch(query: string, page: int)
      modifies this
      ensures page == 1 ==> State() == old(State()).(loading := true, error := None, searchQuery := query, currentSeries := [])
      ensures page != 1 ==> State() == old(State()).(loadingMore := true)
    {
      if page == 1 {
        loading := true;
        error := None;
        searchQuery := query;
        currentSeries := [];
      } else {
        loadingMore := true;
      }
    }

    /** After the response of a search. */
    method ReceiveSearchPage(page: int, outcome: Result<Page<TvSeries>, Option<string>>)
      modifies this
      ensures outcome.Ok? ==>
                var got := outcome.value.results;
                State() == old(State()).(
                  searchResults := if page == 1 then got else old(searchResults) + got,
                  currentSeries := if page == 1 then got else old(currentSeries) + got,
                  currentPage := outcome.value.page, totalPages := outcome.value.totalPages,
                  totalResults := outcome.value.totalResults, lastAction := Search,
                  loading := false, loadingMore := false)
      ensures outcome.Err? ==>
                State() == old(State()).(
                  searchResults := if page == 1 then [] else old(searchResults),
                  currentSeries := if page == 1 then [] else old(currentSeries),
                  totalResults := if page == 1 then 0 else old(totalResults),
                  error := outcome.error, loading := false, loadingMore := false)
    {
      if outcome.Ok? {
        var newSeries := outcome.value.results;
        if page == 1 {
          searchResults := newSeries;
          currentSeries := newSeries;
        } else {
          searchResults := searchResults + newSeries;
          currentSeries := currentSeries + newSeries;
        }
        currentPage := outcome.value.page;
        totalPages := outcome.value.totalPages;
        totalResults := outcome.value.totalResults;
        lastAction := Search;
      } else {
        error := outcome.error;
        if page == 1 {
          currentSeries := [];
          searchResults := [];
          totalResults := 0;
        }
      }
      loading := false;
      loadingMore := false;
    }

    /** `loadMoreTVSeries`: nothing unless a next page can be loaded; then the next page
        of the search (when the last action was a search with a query) or of the
        popular list; after a trending or top-rated load nothing is requested. The
        search goes through the corrected `SearchTvSeries`. */
    method LoadMoreTvSeries(call: ApiCall<Page<TvSeries>>) returns (sent: Option<Request>)
      modifies this
      ensures !old(CanLoadMore()) ==> sent == None && State() == old(State())
      ensures old(CanLoadMore()) && old(lastAction) == Search && old(searchQuery) != "" ==>
                var next := old(currentPage) + 1;
                if IsBlank(old(searchQuery)) then
                  sent == None && State() == BlankSearched(old(State()))
                else
                  sent == Some(SearchPage(old(searchQuery), next)) &&
                  State() == Searched(old(State()), old(searchQuery), next, Caught(call, SearchFailed))
      ensures old(CanLoadMore()) && old(lastAction) == Popular ==>
                sent == Some(PopularPage(old(currentPage) + 1)) &&
                State() == PopularLoaded(old(State()), old(currentPage) + 1, Caught(call, PopularFailed))
      ensures old(lastAction) == Search && old(searchQuery) == "" ==> sent == None && State() == old(State())
      ensures old(lastAction) in {Trending, TopRated} ==> sent == None && State() == old(State())
    {
      if !CanLoadMore() {
        return None;
      }
      var nextPage := currentPage + 1;
      if lastAction == Search && |searchQuery| > 0 {
        sent := SearchTvSeries(searchQuery, nextPage, call);
      } else if lastAction == Popular {
        var request := LoadPopularTvSeries(nextPage, call);
        sent := Some(request);
      } else {
        sent := None;
      }
    }

    /** `retryLastAction`: the first page of the search when the last action was a
        search with a query, otherwise the first page of the popular list. The search
        goes through the corrected `SearchTvSeries`. */
    method RetryLastAction(call: ApiCall<Page<TvSeries>>) returns (sent: Option<Request>)
      modifies this
      ensures old(lastAction) == Search && old(searchQuery) != "" ==>
                if IsBlank(old(searchQuery)) then
                  sent == None && State() == BlankSearched(old(State()))
                else
                  sent == Some(SearchPage(old(searchQuery), 1)) &&
                  State() == Searched(old(State()), old(searchQuery), 1, Caught(call, SearchFailed))
      ensures !(old(lastAction) == Search && old(searchQuery) != "") ==>
                sent == Some(PopularPage(1)) &&
                State() == PopularLoaded(old(State()), 1, Caught(call, PopularFailed))
    {
      if lastAction == Search && |searchQuery| > 0 {
        sent := SearchTvSeries(searchQuery, 1, call);
      } else {
        var request := LoadPopularTvSeries(1, call);
        sent := Some(request);
      }
    }

    /** `clearAllData`: every field back to its initial value. */
    method ClearAllData()
      modifies this
      ensures State() == Initial
      ensures !CanLoadMore() && !IsSearching() && !HasPopularSeries()
    {
      currentSeries := [];
      popularSeries := [];
      searchResults := [];
      searchQuery := "";
      currentPage := 1;
      totalPages := 0;
      totalResults := 0;
      error := None;
      loading := false;
      loadingMore := false;
      lastAction := Popular;
    }
  }
}
