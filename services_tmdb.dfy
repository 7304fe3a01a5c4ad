/** The caching movie client `TMDBService` (src/services/tmdb.ts): a keyed
    response cache with a fixed 15-minute time to live in front of the remote
    fetches, the cache keys built from the request parameters, the title lookup
    and the image URL helpers. The clock is the `now` parameter and every remote
    response is a parameter (`Ok` payload or the value the request threw). */
module TmdbService {

  import opened Common
  import opened Text
  import opened OrderedMap
  import opened MovieTypes
  import opened HttpError

  /** `CACHE_TTL`: 15 minutes in milliseconds. */
  const CacheTtl: int := 15 * 60 * 1000

  /** What the cache stores: a page of movies or the details of one movie. */
  datatype Payload = PagePayload(page: Page<Movie>) | DetailsPayload(details: MovieDetails)

  /** `CacheItem<T>` */
  datatype CacheItem = CacheItem(data: Payload, timestamp: int, expiry: int)

  type Cache = OMap<string, CacheItem>

  // ---------------------------------------------------------------------------
  // Cache keys

  function PopularKey(page: int): string {
    "popular-" + IntToString(page)
  }

  /** The query is lower-cased, so queries that differ only in case share an entry. */
  function SearchKey(query: string, page: int): string {
    "search-" + Lower(query) + "-" + IntToString(page)
  }

  function DetailsKey(movieId: int): string {
    "movie-" + IntToString(movieId)
  }

  predicate IsDetailsKey(key: string) {
    StartsWith(key, "movie-")
  }

  /** Distinct pages have distinct popular-list entries. */
  lemma PopularKeyInjective(p1: int, p2: int)
    ensures PopularKey(p1) == PopularKey(p2) <==> p1 == p2
  {
    if PopularKey(p1) == PopularKey(p2) {
      assert PopularKey(p1)[8..] == IntToString(p1);
      assert PopularKey(p2)[8..] == IntToString(p2);
      IntToStringInjective(p1, p2);
    }
  }

  /** Distinct movie ids have distinct detail entries. */
  lemma DetailsKeyInjective(id1: int, id2: int)
    ensures DetailsKey(id1) == DetailsKey(id2) <==> id1 == id2
  {
    if DetailsKey(id1) == DetailsKey(id2) {
      assert DetailsKey(id1)[6..] == IntToString(id1);
      assert DetailsKey(id2)[6..] == IntToString(id2);
      IntToStringInjective(id1, id2);
    }
  }

  /** For page numbers that are not negative, two searches share an entry exactly
      when their lower-cased queries and their pages agree. */
  lemma SearchKeyCollision(q1: string, p1: int, q2: string, p2: int)
    requires p1 >= 0 && p2 >= 0
    ensures SearchKey(q1, p1) == SearchKey(q2, p2) <==> Lower(q1) == Lower(q2) && p1 == p2
  {
    if SearchKey(q1, p1) == SearchKey(q2, p2) {
      SearchKeySuffix(q1, p1);
      SearchKeySuffix(q2, p2);
      DigitsHaveNoDash(IntToString(p1));
      DigitsHaveNoDash(IntToString(p2));
      SplitAtLastSeparator(Lower(q1), IntToString(p1), Lower(q2), IntToString(p2), '-');
      IntToStringInjective(p1, p2);
    }
  }

  /** After the "search-" prefix comes the lower-cased query, a dash and the page. */
  lemma SearchKeySuffix(q: string, p: int)
    ensures SearchKey(q, p)[7..] == Lower(q) + ['-'] + IntToString(p)
  {
    var prefix, rest := "search-", Lower(q) + "-" + IntToString(p);
    assert |prefix| == 7;
    assert SearchKey(q, p) == prefix + rest;
    assert (prefix + rest)[|prefix|..] == rest;
    assert "-" == ['-'];
  }

  lemma DigitsHaveNoDash(s: string)
    requires AllDigits(s)
    ensures '-' !in s
  {
    forall i | 0 <= i < |s|
      ensures s[i] != '-'
    {
      assert IsDigit(s[i]);
    }
  }

  /** The three kinds of request never share an entry, and only detail keys look like one. */
  lemma KeyKindsDisjoint(page: int, query: string, searchPage: int, movieId: int)
    ensures PopularKey(page) != SearchKey(query, searchPage)
    ensures PopularKey(page) != DetailsKey(movieId)
    ensures SearchKey(query, searchPage) != DetailsKey(movieId)
    ensures IsDetailsKey(DetailsKey(movieId))
    ensures !IsDetailsKey(PopularKey(page)) && !IsDetailsKey(SearchKey(query, searchPage))
  {
    assert PopularKey(page)[0] == 'p';
    assert SearchKey(query, searchPage)[0] == 's';
    assert DetailsKey(movieId)[0] == 'm';
    assert DetailsKey(movieId)[..6] == "movie-";
  }

  // ---------------------------------------------------------------------------
  // The cached fetch

  /** The message of the error `getCachedData` throws when the fetch fails. */
  function FetchErrorMessage(e: Thrown): (msg: string)
    ensures e.ErrorObject? && e.response.Some? && e.response.value.data.Some? ==>
              msg == "TMDB Error: " + Render(e.response.value.data.value.statusMessage)
    ensures e.ErrorObject? && !(e.response.Some? && e.response.value.data.Some?) && e.message.Some? ==>
              msg == "Network Error: " + e.message.value
    ensures (e.NotAnObject? || (!(e.response.Some? && e.response.value.data.Some?) && e.message.None?)) ==>
              msg == "Unknown error occurred"
  {
    match e
    case NotAnObject => "Unknown error occurred"
    case ErrorObject(response, _, message) =>
      if response.Some? && response.value.data.Some? then
        "TMDB Error: " + Render(response.value.data.value.statusMessage)
      else if message.Some? then "Network Error: " + message.value
      else "Unknown error occurred"
  }

  /** An entry serves a lookup only strictly before its expiry. */
  predicate IsFresh(item: CacheItem, now: int) {
    now < item.expiry
  }

  /** The outcome of one `getCachedData` call: what it returns (or the message of
      what it throws), the cache afterwards, and whether the fetch was invoked. */
  datatype Lookup = Lookup(result: Result<Payload, string>, cache: Cache, fetched: bool)

  function CachedLookup(cache: Cache, key: string, now: int, fetch: Result<Payload, Thrown>): (o: Lookup)
    requires cache.Valid()
    ensures o.cache.Valid()
  {
    if key in cache.values && IsFresh(cache.values[key], now) then
      Lookup(Ok(cache.values[key].data), cache, false)
    else
      match fetch
      case Ok(data) => Lookup(Ok(data), cache.Put(key, CacheItem(data, now, now + CacheTtl)), true)
      case Err(e) => Lookup(Err(FetchErrorMessage(e)), cache, true)
  }

  /** A fresh entry answers the lookup with the stored data; the fetch is not
      invoked and the cache does not change. */
  lemma HitSkipsFetch(cache: Cache, key: string, now: int, fetch: Result<Payload, Thrown>)
    requires cache.Valid() && key in cache.values && now < cache.values[key].expiry
    ensures CachedLookup(cache, key, now, fetch) == Lookup(Ok(cache.values[key].data), cache, false)
  {
  }

  /** The freshness test is strict: at the expiry instant the entry is refetched. */
  lemma ExpiryInstantIsMiss(cache: Cache, key: string, fetch: Result<Payload, Thrown>)
    requires cache.Valid() && key in cache.values
    ensures CachedLookup(cache, key, cache.values[key].expiry, fetch).fetched
  {
  }

  /** A successful fetch stores `{data, now, now + 15 min}` under the key, returns
      the data and leaves every other key as it was. */
  lemma MissStoresFetched(cache: Cache, key: string, now: int, data: Payload)
    requires cache.Valid() && !(key in cache.values && now < cache.values[key].expiry)
    ensures var o := CachedLookup(cache, key, now, Ok(data));
            o.fetched && o.result == Ok(data) &&
            o.cache.values[key] == CacheItem(data, now, now + CacheTtl) &&
            (forall k :: k in cache.values && k != key ==> k in o.cache.values && o.cache.values[k] == cache.values[k]) &&
            (forall k :: k in o.cache.values ==> k == key || k in cache.values)
  {
  }

  /** A failed fetch is reported with its message and leaves the cache unchanged. */
  lemma FailureLeavesCache(cache: Cache, key: string, now: int, e: Thrown)
    requires cache.Valid() && !(key in cache.values && now < cache.values[key].expiry)
    ensures CachedLookup(cache, key, now, Err(e)) == Lookup(Err(FetchErrorMessage(e)), cache, true)
  {
  }

  /** Two lookups of one key within the time to live: the second returns what the
      first fetched and never invokes its own fetch function. */
  lemma RepeatWithinTtlIsServedFromCache(cache: Cache, key: string, t1: int, t2: int,
                                          data: Payload, second: Result<Payload, Thrown>)
    requires cache.Valid() && !(key in cache.values && t1 < cache.values[key].expiry)
    requires t1 <= t2 < t1 + CacheTtl
    ensures var first := CachedLookup(cache, key, t1, Ok(data));
            var again := CachedLookup(first.cache, key, t2, second);
            !again.fetched && again.result == Ok(data) && again.cache == first.cache
  {
  }

  /** Once the time to live has passed, the same lookup fetches again. */
  lemma RepeatAfterTtlFetches(cache: Cache, key: string, t1: int, t2: int,
                               data: Payload, second: Result<Payload, Thrown>)
    requires cache.Valid() && !(key in cache.values && t1 < cache.values[key].expiry)
    requires t2 >= t1 + CacheTtl
    ensures CachedLookup(CachedLookup(cache, key, t1, Ok(data)).cache, key, t2, second).fetched
  {
  }

  /** A failed fetch does not block the next attempt: it fetches and returns the new value. */
  lemma FailureThenRetry(cache: Cache, key: string, t1: int, t2: int, e: Thrown, data: Payload)
    requires cache.Valid() && key !in cache.values
    ensures var first := CachedLookup(cache, key, t1, Err(e));
            var again := CachedLookup(first.cache, key, t2, Ok(data));
            first.result.Err? && again.fetched && again.result == Ok(data)
  {
  }

  /** Every detail key holds movie details and every other key holds a page, so the
      typed reads of the client (`cached.data as T`) are sound. */
  predicate WellTyped(cache: Cache) {
    forall k :: k in cache.values ==> (IsDetailsKey(k) <==> cache.values[k].data.DetailsPayload?)
  }

  /** `Array.from(cache.keys())` with its `size`. */
  datatype CacheStats = CacheStats(size: nat, keys: seq<string>)

  class TmdbService {
    var cache: Cache

    ghost predicate Valid()
      reads this
    {
      cache.Valid() && WellTyped(cache)
    }

    constructor ()
      ensures Valid() && cache == Empty()
    {
      cache := Empty();
    }

    /** `getCachedData`: the fetch of a miss must produce the kind of payload the key stands for. */
    method GetCachedData(key: string, now: int, fetch: Result<Payload, Thrown>)
      returns (r: Result<Payload, string>, fetched: bool)
      requires Valid()
      requires fetch.Ok? ==> (IsDetailsKey(key) <==> fetch.value.DetailsPayload?)
      modifies this
      ensures Valid()
      ensures Lookup(r, cache, fetched) == CachedLookup(old(cache), key, now, fetch)
    {
      if key in cache.values && now < cache.values[key].expiry {
        r, fetched := Ok(cache.values[key].data), false;
        return;
      }
      fetched := true;
      match fetch
      case Ok(data) =>
        cache := cache.Put(key, CacheItem(data, now, now + CacheTtl));
        r := Ok(data);
      case Err(e) =>
        r := Err(FetchErrorMessage(e));
    }

    /** `getPopularMovies(page)` */
    method GetPopularMovies(now: int, fetch: Result<Page<Movie>, Thrown>, page: int := 1)
      returns (r: Result<Page<Movie>, string>, fetched: bool)
      requires Valid()
      modifies this
      ensures Valid()
      ensures var o := CachedLookup(old(cache), PopularKey(page), now, PageFetch(fetch));
              cache == o.cache && fetched == o.fetched &&
              (o.result.Err? ==> r == Err(o.result.error)) &&
              (o.result.Ok? ==> o.result.value.PagePayload? && r == Ok(o.result.value.page))
    {
      KeyKindsDisjoint(page, "", 0, 0);
      var p;
      p, fetched := GetCachedData(PopularKey(page), now, PageFetch(fetch));
      r := AsPage(p, PopularKey(page));
    }

    /** `searchMovies(query, page)`: a blank query answers the empty first page
        without touching the cache or the network. */
    method SearchMovies(query: string, now: int, fetch: Result<Page<Movie>, Thrown>, page: int := 1)
      returns (r: Result<Page<Movie>, string>, fetched: bool)
      requires Valid()
      modifies this
      ensures Valid()
      ensures IsBlank(query) ==> r == Ok(EmptySearchPage()) && !fetched && cache == old(cache)
      ensures !IsBlank(query) ==>
              var o := CachedLookup(old(cache), SearchKey(query, page), now, PageFetch(fetch));
              cache == o.cache && fetched == o.fetched &&
              (o.result.Err? ==> r == Err(o.result.error)) &&
              (o.result.Ok? ==> o.result.value.PagePayload? && r == Ok(o.result.value.page))
    {
      TrimEmptyIffBlank(query);
      if Trim(query) == "" {
        r, fetched := Ok(EmptySearchPage()), false;
        return;
      }
      KeyKindsDisjoint(0, query, page, 0);
      var p;
      p, fetched := GetCachedData(SearchKey(query, page), now, PageFetch(fetch));
      r := AsPage(p, SearchKey(query, page));
    }

    /** `getMovieDetails(movieId)` */
    method GetMovieDetails(movieId: int, now: int, fetch: Result<MovieDetails, Thrown>)
      returns (r: Result<MovieDetails, string>, fetched: bool)
      requires Valid()
      modifies this
      ensures Valid()
      ensures var o := CachedLookup(old(cache), DetailsKey(movieId), now, DetailsFetch(fetch));
              cache == o.cache && fetched == o.fetched &&
              (o.result.Err? ==> r == Err(o.result.error)) &&
              (o.result.Ok? ==> o.result.value.DetailsPayload? && r == Ok(o.result.value.details))
    {
      KeyKindsDisjoint(0, "", 0, movieId);
      var p;
      p, fetched := GetCachedData(DetailsKey(movieId), now, DetailsFetch(fetch));
      match p
      case Ok(payload) => r := Ok(payload.details);
      case Err(msg) => r := Err(msg);
    }

    /** `getMovieByTitle(title)`: searches page 1 through the cache and picks the
        best match; a failed search yields no movie. */
    method GetMovieByTitle(title: string, now: int, fetch: Result<Page<Movie>, Thrown>)
      returns (r: Option<Movie>)
      requires Valid()
      modifies this
      ensures Valid()
      ensures IsBlank(title) ==> r == None && cache == old(cache)
      ensures !IsBlank(title) ==>
              var o := CachedLookup(old(cache), SearchKey(title, 1), now, PageFetch(fetch));
              cache == o.cache &&
              (o.result.Err? ==> r == None) &&
              (o.result.Ok? ==> o.result.value.PagePayload? &&
                                r == BestTitleMatch(o.result.value.page.results, title))
    {
      var response, _ := SearchMovies(title, now, fetch, 1);
      match response
      case Err(_) => r := None;
      case Ok(page) => r := BestTitleMatch(page.results, title);
    }

    /** `clearCache()` */
    method ClearCache()
      requires Valid()
      modifies this
      ensures Valid() && cache == Empty()
    {
      cache := Empty();
    }

    /** `getCacheStats()`: the size is the number of listed keys, each stored key is
        listed once, in insertion order; expired entries not yet replaced are included. */
    function GetCacheStats(): (s: CacheStats)
      reads this
      requires Valid()
      ensures s.size == |s.keys| == |cache.values|
      ensures Distinct(s.keys)
      ensures forall k :: k in cache.values <==> k in s.keys
    {
      SizeIsCardinality(cache);
      CacheStats(cache.Size(), cache.keys)
    }

    /** `getImageUrl(path, size)` of this client. */
    function GetImageUrl(path: Option<string>, size: string := "w500"): (url: string)
      ensures !Truthy(path) ==> url == "/placeholder-movie.jpg"
      ensures Truthy(path) ==> StartsWith(url, ImageBase) && url[|ImageBase|..] == size + path.value
    {
      if !Truthy(path) then "/placeholder-movie.jpg" else ImageBase + size + path.value
    }

    /** `getBackdropUrl(path, size)` of this client. */
    function GetBackdropUrl(path: Option<string>, size: string := "w1280"): (url: string)
      ensures !Truthy(path) ==> url == "/placeholder-backdrop.jpg"
      ensures Truthy(path) ==> StartsWith(url, ImageBase) && url[|ImageBase|..] == size + path.value
    {
      if !Truthy(path) then "/placeholder-backdrop.jpg" else ImageBase + size + path.value
    }
  }

  const ImageBase: string := "https://image.tmdb.org/t/p/"

  function PageFetch(fetch: Result<Page<Movie>, Thrown>): Result<Payload, Thrown> {
    match fetch
    case Ok(p) => Ok(PagePayload(p))
    case Err(e) => Err(e)
  }

  function DetailsFetch(fetch: Result<MovieDetails, Thrown>): Result<Payload, Thrown> {
    match fetch
    case Ok(d) => Ok(DetailsPayload(d))
    case Err(e) => Err(e)
  }

  /** The typed read of a page key's payload. */
  function AsPage(p: Result<Payload, string>, key: string): Result<Page<Movie>, string>
    requires p.Ok? ==> p.value.PagePayload?
  {
    match p
    case Ok(payload) => Ok(payload.page)
    case Err(msg) => Err(msg)
  }
}
