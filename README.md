# Movie app core in Dafny

This project models the client-side core of a Vue/TypeScript movie app built on
the TMDB catalogue, Firebase authentication and a Gemini-backed recommender:

- **TMDB service cache** (`TMDBService`): a key/value cache with a 15-minute
  lifetime in front of the movie API. It has keys for popular pages, searches and
  details, and turns errors into messages.
- **Global loader** (`useLoader`): a map of running operations, kept in insertion
  order, plus the `wrapAPICall` wrapper.
- **AI recommendation service**:
  - a guard that needs at least 3 liked movies;
  - a response cache keyed by the sorted liked ids, with a 30-minute lifetime and
    at most 50 entries (the oldest goes first);
  - the shaping of the AI reply into at most six recommendations, with the
    confidence clamped to 1..10;
  - the "similar movies" fallback.
- **User store**: the liked-movie list, preferences, and the genre and year
  statistics.
- **Toast queue**: newest first, at most five entries.
- **Movies and TV stores**: pages, queries, loading flags and append-or-replace
  result lists.
- **Movie API client** (`TMDBAPI`): blank-query handling, best title match,
  configuration status, error messages and image URLs.
- **Auth service**: password and e-mail validation, Firebase error messages, the
  auth-state listener list and the singleton.
- **Auth API client**: the response shapes of login, register, logout, profile
  update and the configuration check.
- **Sign-in modal state** (`provideAuthModal`).

Each file the source mutates step by step becomes a class: the caches, the loader
map, the stores, the toast list, the listener list and the modal. Their fields are
values (`seq`, or `OMap`, which models a JavaScript `Map`) that the methods
reassign. Each method's postcondition ties the new state to a specification
function, and the properties are proved about those functions. Pure helpers
(message tables, validation, cache keys, URL building) are functions with lemmas.

The values the real program gets from outside are parameters:

- the reply of each awaited network call (`ApiCall`, `Result<_, Thrown>`,
  `Outcome`, `AiReply`);
- the clock (`now`);
- generated ids.

Every store action returns the request it would send, so "no request is made" can
be stated.

## Model

| member | source | states |
|---|---|---|
| Loader.OperationId | src/services/loader.ts:49 | a non-empty supplied id is used; otherwise the generated one |
| Loader.LoaderState.constructor | src/services/loader.ts:10 | the operation map starts empty |
| Loader.LoaderState.IsLoading | src/services/loader.ts:14 | loading exactly when at least one operation is active |
| Loader.LoaderState.CurrentOperation | src/services/loader.ts:15-18 | none when the map is empty; otherwise the operation under the last key in insertion order |
| Loader.LoaderState.OperationCount | src/services/loader.ts:19 | equals the number of active operations |
| Loader.LoaderState.ActiveOperations | src/services/loader.ts:65 | the active operations in the order they were started (the Map's key insertion order), one entry per key |
| Loader.LoaderState.StartLoading | src/services/loader.ts:22-30 | the map gains or overwrites the entry for the id, with the label and start time |
| Loader.LoaderState.StopLoading | src/services/loader.ts:32-37 | the entry for the id is removed; an absent id changes nothing |
| Loader.LoaderState.StopAllLoading | src/services/loader.ts:39-41 | the map becomes empty |
| Loader.LoaderState.WrapApiCall | src/services/loader.ts:44-58 | returns the call's outcome, whether it returned or threw; the operation is registered during the call and removed afterwards; a fresh id leaves the map as it was; a reused id loses its earlier entry |
| Loader.RestartKeepsPosition | src/services/loader.ts:29 | restarting an active id keeps its position and the count, and replaces its entry |
| Loader.WrapFreshOperation | src/services/loader.ts:51-57 | a fresh operation is the current one during the call, adds one to the count, and its removal restores the map |
| OrderedMap.OMap.Put | src/services/loader.ts:29 | a new key goes at the end; an existing key keeps its position; the size grows by one only for a new key |
| OrderedMap.OMap.Remove | src/services/loader.ts:35 | the key is gone and the order of the others is kept |
| OrderedMap.OMap.Last | src/services/loader.ts:16-17 | the value under the last-inserted key, or none exactly when empty |
| OrderedMap.OMap.ValuesInOrder | src/services/loader.ts:16 | the values in key insertion order, one per key |
| OrderedMap.SizeIsCardinality | src/services/tmdb.ts:156 | the size equals the number of keys |
| OrderedMap.PutThenRemoveFresh | src/services/loader.ts:51-56 | adding a fresh key and then deleting it restores the map |
| OrderedMap.LastAfterRemoveOfLast | src/services/loader.ts:15-18 | after adding a fresh key it is the last one; after removing it the previous last returns |
| TmdbService.PopularKeyInjective | src/services/tmdb.ts:85 | two popular-page keys are equal exactly when the page numbers are |
| TmdbService.DetailsKeyInjective | src/services/tmdb.ts:105 | two details keys are equal exactly when the movie ids are |
| TmdbService.SearchKeyCollision | src/services/tmdb.ts:95 | for non-negative pages, two search keys are equal exactly when the lower-cased queries and the pages are, so case variants share one entry |
| TmdbService.KeyKindsDisjoint | src/services/tmdb.ts:85-105 | popular, search and details keys never collide, and only details keys start with "movie-" |
| TmdbService.FetchErrorMessage | src/services/tmdb.ts:68-80 | a response body gives "TMDB Error: " plus its status message; otherwise a message gives "Network Error: " plus the message; otherwise "Unknown error occurred" |
| TmdbService.HitSkipsFetch | src/services/tmdb.ts:50-54 | an entry not yet expired is returned, the cache is unchanged and nothing is fetched |
| TmdbService.ExpiryInstantIsMiss | src/services/tmdb.ts:51 | at exactly the expiry instant the entry is stale and a fetch happens |
| TmdbService.MissStoresFetched | src/services/tmdb.ts:56-67 | on a miss, a successful fetch is returned and stored with timestamp now and expiry now + 15 minutes; the other entries are untouched |
| TmdbService.FailureLeavesCache | src/services/tmdb.ts:68-80 | a failed fetch returns the mapped error and leaves the cache as it was |
| TmdbService.RepeatWithinTtlIsServedFromCache | src/services/tmdb.ts:50-67 | a second request within 15 minutes of a successful fetch is served from the cache, without a fetch |
| TmdbService.RepeatAfterTtlFetches | src/services/tmdb.ts:51 | a request 15 minutes or more after the fetch fetches again |
| TmdbService.FailureThenRetry | src/services/tmdb.ts:56-80 | after a failure nothing is cached, so the next request fetches and succeeds |
| TmdbService.TmdbService.constructor | src/services/tmdb.ts:13 | the cache starts empty |
| TmdbService.TmdbService.GetCachedData | src/services/tmdb.ts:45-81 | the result, the new cache and whether a fetch happened are those of the cache lookup |
| TmdbService.TmdbService.GetPopularMovies | src/services/tmdb.ts:84-87 | the cached lookup under the popular key for the page |
| TmdbService.TmdbService.SearchMovies | src/services/tmdb.ts:90-101 | a blank query gives the empty first page, without a fetch or a cache change; otherwise the cached lookup under the search key |
| TmdbService.TmdbService.GetMovieDetails | src/services/tmdb.ts:104-107 | the cached lookup under the details key |
| TmdbService.TmdbService.GetMovieByTitle | src/services/tmdb.ts:110-124 | none for a blank title or a failed search; otherwise the first case-insensitive exact match, else the first result, else none |
| TmdbService.TmdbService.ClearCache | src/services/tmdb.ts:148-151 | the cache becomes empty |
| TmdbService.TmdbService.GetCacheStats | src/services/tmdb.ts:154-159 | the size equals the number of keys listed, the keys are distinct, and exactly the cached keys are listed |
| TmdbService.TmdbService.GetImageUrl | src/services/tmdb.ts:127-130 | a missing or empty path gives the movie placeholder; otherwise the image base, then the size, then the path |
| TmdbService.TmdbService.GetBackdropUrl | src/services/tmdb.ts:133-136 | a missing or empty path gives the backdrop placeholder; otherwise the image base, then the size, then the path |
| MovieTypes.Settle | src/stores/movies.ts:50-64 | a response counts only when it is successful and carries data; otherwise the error is the response's error, or the thrown message, or the fallback |
| MovieTypes.Ids | src/services/ai-recommendations.ts:290 | the ids of the movies, in order |
| MovieTypes.EmptySearchPage | src/api/tmdb.ts:94-99 | page 1 with no results and zero totals |
| MovieTypes.FirstExactMatch | src/api/tmdb.ts:174-176 | the index of the first title that equals the query ignoring case, or none when no title does |
| MovieTypes.BestTitleMatch | src/api/tmdb.ts:178 | the first exact match if there is one, else the first result; none exactly when there are no results |
| AiRecommendations.SortAsc | src/services/ai-recommendations.ts:291 | sorted ascending and a permutation of the input |
| AiRecommendations.SortedUnique | src/services/ai-recommendations.ts:291 | two sorted sequences with the same elements are equal |
| AiRecommendations.CacheKeyIgnoresOrder | src/services/ai-recommendations.ts:288-294 | liked lists with the same ids, in any order, give the same cache key |
| AiRecommendations.GetFromCacheSpec | src/services/ai-recommendations.ts:299-310 | a hit exactly when the key is cached and not older than 30 minutes; a hit leaves the cache unchanged; a stale or missing entry is deleted and the order of the rest is kept |
| AiRecommendations.SetCacheSpec | src/services/ai-recommendations.ts:315-328 | the entry is stored with timestamp now; the cache keeps at most 50 entries; the oldest key is evicted only when a new key arrives at a full cache |
| AiRecommendations.SetCacheEvicts | src/services/ai-recommendations.ts:321-327 | a new key at a full cache evicts the first-inserted key and stays at 50 entries |
| AiRecommendations.ClampConfidence | src/services/ai-recommendations.ts:217 | for an integer or missing confidence: always 1..10; a value in range is kept; a missing value or 0 becomes 7; others are clamped to the nearest bound |
| AiRecommendations.LikedTitles | src/services/ai-recommendations.ts:196 | the lower-cased titles of the liked movies, in order |
| AiRecommendations.Contribution | src/services/ai-recommendations.ts:199-223 | each AI entry contributes nothing or one recommendation that is AI-generated, confidence 1..10, and not a liked title |
| AiRecommendations.CandidatesShaped | src/services/ai-recommendations.ts:198-228 | every candidate is AI-generated, has confidence 1..10 (for the integer confidences the model takes) and is not among the liked titles |
| AiRecommendations.CapReached | src/services/ai-recommendations.ts:222 | once six recommendations are collected, later entries add nothing |
| AiRecommendations.ParseOutcomeSpec | src/services/ai-recommendations.ts:182-235 | an unparseable reply or a missing list fails with "Failed to parse AI recommendations"; otherwise at most six well-formed recommendations |
| AiRecommendations.ExtractExplanation | src/services/ai-recommendations.ts:275-283 | the reply's non-empty explanation, else the default sentence |
| AiRecommendations.LastThree | src/services/ai-recommendations.ts:248 | the last three liked movies, or all of them when fewer |
| AiRecommendations.FallbackRunKeepsInv | src/services/ai-recommendations.ts:244-263 | the seen set always holds every liked id and every suggested id, and the suggestions are distinct and capped |
| AiRecommendations.FallbackSpec | src/services/ai-recommendations.ts:240-270 | at most six suggestions, each with confidence 7, not AI-generated, not a liked movie, and no movie twice |
| AiRecommendations.AbortedStays | src/services/ai-recommendations.ts:246-267 | once a similar-movies call throws, the later sources add nothing |
| AiRecommendations.FallbackAsShippedIsEmpty | src/services/ai-recommendations.ts:249 | as shipped, the fallback is always empty |
| AiRecommendations.TooFewLikes | src/services/ai-recommendations.ts:32-39 | fewer than three liked movies gives the insufficient-data response, with no cache change and no AI call |
| AiRecommendations.CachedResponseServed | src/services/ai-recommendations.ts:41-46 | a fresh cached response for the liked set is returned as it is, without an AI call |
| AiRecommendations.OnlySuccessIsCached | src/services/ai-recommendations.ts:48-81 | a successful AI response is cached under the key with timestamp now; a failure caches nothing and returns the fallback list with the unavailability explanation; the cache bound is kept |
| AiRecommendations.AiRecommendationService.GetFromCacheAt | src/services/ai-recommendations.ts:299-310 | the hit and the new cache are those of the cache read |
| AiRecommendations.AiRecommendationService.SetCacheAt | src/services/ai-recommendations.ts:315-328 | the new cache is that of the cache write |
| AiRecommendations.AiRecommendationService.ClearCache | src/services/ai-recommendations.ts:333-335 | the cache becomes empty |
| AiRecommendations.AiRecommendationService.GetCacheStatus | src/services/ai-recommendations.ts:340-345 | the size equals the number of keys, is at most 50, and exactly the cached keys are listed |
| AiRecommendations.AiRecommendationService.ParseAndFetchMovies | src/services/ai-recommendations.ts:182-235 | the parse outcome specified above |
| AiRecommendations.AiRecommendationService.CollectRecommendations | src/services/ai-recommendations.ts:198-228 | the first six accepted candidates, in the AI's order |
| AiRecommendations.AiRecommendationService.FallbackRecommendations | src/services/ai-recommendations.ts:240-270 | the fallback list specified above |
| AiRecommendations.AiRecommendationService.RequestAndStore | src/services/ai-recommendations.ts:49-81 | the response and the new cache are those of the specified AI request: a success is cached, a failure returns the fallback |
| AiRecommendations.AiRecommendationService.GenerateRecommendations | src/services/ai-recommendations.ts:31-86 | the response and the new cache are those of the specified outcome; when the request is made, the id `ai-recommendations-<count>` is no longer active afterwards, even if it was active before; otherwise the loader is untouched |
| AiRecommendations.AiRecommendationService.RequestUnderLoader | src/services/ai-recommendations.ts:48-85 | the request's response and cache are those of `RequestOutcome`, and the id `ai-recommendations-<count>` is not active afterwards |
| UserStore.DefaultPreferences | src/stores/user.ts:8-13 | dark mode on, autoplay off, adult content off, language "en" |
| UserStore.MergeSpec | src/stores/user.ts:65-66 | each supplied field overrides and the others are kept; merging twice is merging once; an empty patch changes nothing |
| UserStore.FindIndex | src/stores/user.ts:37 | the first index with the id, or -1 when none has it |
| UserStore.LikedSpec | src/stores/user.ts:27-34 | liking appends the movie exactly when its id is not liked yet; ids stay distinct |
| UserStore.UnlikedSpec | src/stores/user.ts:36-43 | unliking removes exactly that id and keeps every other; a missing id changes nothing; ids stay distinct |
| UserStore.ToggleTwiceRestores | src/stores/user.ts:45-52 | toggling a movie on and then off restores the list |
| UserStore.YearsOf | src/stores/user.ts:148 | the release year of each movie, as the text before the first '-' |
| UserStore.TallyCounts | src/stores/user.ts:141-150 | the tally lists exactly the values that occur, each with its number of occurrences |
| UserStore.SortByCountDesc | src/stores/user.ts:159 | sorted by count, highest first, and a permutation of the entries |
| UserStore.TopByCountEntries | src/stores/user.ts:158-163 | at most three entries, highest count first, each a real key with its count |
| UserStore.TopByCountSize | src/stores/user.ts:158-163 | exactly min(3, number of keys) entries, and no key twice |
| UserStore.TopByCountDominates | src/stores/user.ts:158-163 | a key left out of the top three has a count no higher than any kept entry |
| UserStore.UserStoreState.constructor | src/stores/user.ts:7-13 | no liked movies and the default preferences |
| UserStore.UserStoreState.LikedMovieIds | src/stores/user.ts:16-18 | the ids of the liked movies, in order |
| UserStore.UserStoreState.HasLikedMovies | src/stores/user.ts:22 | true exactly when at least one movie is liked |
| UserStore.UserStoreState.CanGetRecommendations | src/stores/user.ts:24 | true exactly when at least three movies are liked |
| UserStore.UserStoreState.IsMovieLiked | src/stores/user.ts:54-56 | true exactly when the id is among the liked ids |
| UserStore.UserStoreState.LikeMovie | src/stores/user.ts:27-34 | the list becomes the liked list specified above; the preferences are unchanged |
| UserStore.UserStoreState.UnlikeMovie | src/stores/user.ts:36-43 | the list becomes the unliked list specified above; the preferences are unchanged |
| UserStore.UserStoreState.ToggleLike | src/stores/user.ts:45-52 | the liked status of the id flips: a liked movie is removed and an unliked one is appended |
| UserStore.UserStoreState.ClearLikedMovies | src/stores/user.ts:58-62 | the list becomes empty; the preferences are unchanged |
| UserStore.UserStoreState.UpdatePreferences | src/stores/user.ts:65-68 | the preferences become the merge with the patch; the liked list is unchanged |
| UserStore.UserStoreState.ToggleDarkMode | src/stores/user.ts:70-73 | only the dark-mode flag flips |
| UserStore.UserStoreState.GetMovieStats | src/stores/user.ts:134-165 | none exactly when nothing is liked; otherwise the count, plus the top three genres and years by number of occurrences |
| Toast.Stamp | src/services/toast.ts:28-36 | the input's fields plus the id and creation time; the duration defaults to 4000 only when none is given |
| Toast.PushedSpec | src/services/toast.ts:38-44 | the new notification comes first, the older ones follow in order, and at most five are kept |
| Toast.FindById | src/services/toast.ts:57 | the first index with the id, or -1 when none has it |
| Toast.Removed | src/services/toast.ts:56-61 | an unknown id changes nothing; a known id removes exactly one entry |
| Toast.RemovedSpec | src/services/toast.ts:56-61 | removal drops the first entry with the id and keeps the others in order |
| Toast.AddThenRemove | src/services/toast.ts:28-61 | adding a fresh notification below the limit and then removing it restores the list |
| Toast.ConvenienceInput | src/services/toast.ts:68-107 | the title, the message (empty when none is given), the type and the icon come from the method, and each is overridden by any supplied option |
| Toast.ErrorDefaults | src/services/toast.ts:78-87 | error toasts last 6000 by default, have the error icon, and a duration option overrides that |
| Toast.DefaultDurationOnlyWhenMissing | src/services/toast.ts:34 | a missing duration becomes 4000, while an explicit 0 stays 0 |
| Toast.ToastQueue.constructor | src/services/toast.ts:18 | the list starts empty |
| Toast.ToastQueue.VisibleNotifications | src/services/toast.ts:23 | the whole list, since it never holds more than five |
| Toast.ToastQueue.HasNotifications | src/services/toast.ts:25 | true exactly when the list is non-empty |
| Toast.ToastQueue.AddNotification | src/services/toast.ts:28-54 | returns the id; the stamped notification is first and the list is the pushed list |
| Toast.ToastQueue.RemoveNotification | src/services/toast.ts:56-61 | the list becomes the removed list |
| Toast.ToastQueue.ClearAllNotifications | src/services/toast.ts:63-65 | the list becomes empty |
| Toast.ToastQueue.Success | src/services/toast.ts:68-76 | pushes a success notification with the party icon and the default duration, unless options override them |
| Toast.ToastQueue.Error | src/services/toast.ts:78-87 | pushes an error notification with the cross icon and 6000, unless options override them |
| Toast.ToastQueue.Warning | src/services/toast.ts:89-97 | pushes a warning notification with the warning icon, unless options override it |
| Toast.ToastQueue.Info | src/services/toast.ts:99-107 | pushes an info notification with the bulb icon, unless options override it |
| MoviesStore.Base | src/stores/movies.ts:39-55 | appending keeps the current list; otherwise it starts from empty |
| MoviesStore.FindIn | src/stores/movies.ts:175-178 | a movie with the id from the popular list or the search results, preferring the popular list; none when neither has it |
| MoviesStore.FindInPrefersFirst | src/stores/movies.ts:176-177 | the first popular movie with the id is the one returned |
| MoviesStore.MoviesStore.constructor | src/stores/movies.ts:13-28 | empty lists, page 1 of 1, no results, no query, no flags set, no error, an empty details cache |
| MoviesStore.MoviesStore.HasPopularMovies | src/stores/movies.ts:31 | true exactly when the popular list is non-empty |
| MoviesStore.MoviesStore.HasSearchResults | src/stores/movies.ts:32 | true exactly when the search results are non-empty |
| MoviesStore.MoviesStore.CanLoadMore | src/stores/movies.ts:33 | true exactly when the current page is below the total |
| MoviesStore.MoviesStore.IsSearching | src/stores/movies.ts:34 | true exactly when the query is not blank |
| MoviesStore.MoviesStore.GetCurrentMovies | src/stores/movies.ts:170-172 | the search results while searching, else the popular list |
| MoviesStore.MoviesStore.FindMovieById | src/stores/movies.ts:175-178 | a movie with the id from either list, or none when neither has one |
| MoviesStore.MoviesStore.LoadPopularMovies | src/stores/movies.ts:37-69 | requests the page; the whole new state is `PopularLoaded`: on success the results replace or extend the list and the counters follow the response; on failure the error is set; both flags end false |
| MoviesStore.MoviesStore.BeginPopularLoad | src/stores/movies.ts:38-46 | replacing empties the list and sets loading; appending sets loadingMore; the error is cleared |
| MoviesStore.MoviesStore.ReceivePopularPage | src/stores/movies.ts:50-68 | success stores the results and counters; failure stores the error; both flags end false |
| MoviesStore.MoviesStore.ClearSearchResults | src/stores/movies.ts:158-164 | no results, no query, page 1 of 1, zero total; nothing else changes |
| MoviesStore.MoviesStore.SearchMovies | src/stores/movies.ts:71-112 | a blank query only clears the search (`Cleared`) and sends nothing; otherwise it requests the page and the whole new state is `Searched`: the query recorded, the results or the error stored |
| MoviesStore.MoviesStore.FetchSearchPage | src/stores/movies.ts:77-111 | the non-blank search: the results replace or extend the list, or the error is set; the query is recorded |
| MoviesStore.MoviesStore.BeginSearch | src/stores/movies.ts:77-86 | replacing empties the results and sets loading; appending sets loadingMore; the error is cleared and the query recorded |
| MoviesStore.MoviesStore.ReceiveSearchPage | src/stores/movies.ts:93-111 | success stores the results and counters; failure stores the error; both flags end false |
| MoviesStore.MoviesStore.LoadMovieDetails | src/stores/movies.ts:114-144 | a cached id is served without a request; otherwise a success is cached and shown and a failure sets the error; a returned value is always in the cache |
| MoviesStore.MoviesStore.LoadMoreMovies | src/stores/movies.ts:146-156 | nothing happens without a next page or while loading more; otherwise it requests the next page of the search or of the popular list, and the whole new state is that of an appending search or popular load, counters and error included |
| MoviesStore.MoviesStore.ClearError | src/stores/movies.ts:166-168 | only the error is cleared |
| MoviesStore.MoviesStore.RefreshData | src/stores/movies.ts:180-186 | requests page 1 of the search while searching, else page 1 of the popular list, and the whole new state is that of a replacing search or popular load, counters and error included |
| MoviesStore.AppendedPopularKeepsLoaded | src/stores/movies.ts:50-56 | an appending popular load keeps every movie already listed, in front, and leaves the search untouched |
| MoviesStore.AppendedSearchKeepsLoaded | src/stores/movies.ts:93-99 | an appending search keeps every result already listed, in front, and leaves the popular list untouched |
| MoviesStore.ReplacingLoadStartsOver | src/stores/movies.ts:38-61 | a replacing load leaves exactly the new page and no error, or an empty list and the failure's message |
| TvStore.Caught | src/stores/tv.ts:72-77 | a usable response passes through; a failed response becomes its error or the fallback; a thrown error keeps its own message, possibly none |
| TvStore.CeilDiv | src/stores/tv.ts:168-169 | the least count of pages that covers n items; zero exactly when n is zero |
| TvStore.TvStore.constructor | src/stores/tv.ts:13-27 | every field has its initial value |
| TvStore.TvStore.GetCurrentSeries | src/stores/tv.ts:30 | the current list |
| TvStore.TvStore.IsSearching | src/stores/tv.ts:32 | true exactly when the query is non-empty |
| TvStore.TvStore.HasPopularSeries | src/stores/tv.ts:34 | true exactly when the popular list is non-empty |
| TvStore.TvStore.CanLoadMore | src/stores/tv.ts:36-38 | true exactly when neither flag is set and the current page is below the total |
| TvStore.TvStore.LoadPopularTvSeries | src/stores/tv.ts:41-89 | the whole new state is `PopularLoaded`: page 1 replaces both lists and page > 1 appends to both; a page-1 failure empties both and zeroes the total, while a later failure keeps them; both flags end false |
| TvStore.TvStore.BeginPopularLoad | src/stores/tv.ts:43-49 | page 1 sets loading, clears the error and empties the current list; later pages set loadingMore |
| TvStore.TvStore.ReceivePopularPage | src/stores/tv.ts:55-88 | the success and failure effects of a popular load |
| TvStore.TvStore.ClearSearchResults | src/stores/tv.ts:162-173 | the new state is `Cleared`: the popular list becomes current; the page and the total are derived from its length in pages of 20; no further page can be loaded |
| TvStore.TvStore.SearchTvSeries | src/stores/tv.ts:91-144 | the corrected action: a blank query sends nothing and leaves the cleared state (no results, reset counters, no error) with both flags false; otherwise it requests the page and the whole new state is `Searched`: page 1 replaces and later pages append, and a page-1 failure empties the lists |
| TvStore.TvStore.SearchTvSeriesAsWritten | src/stores/tv.ts:91-144 | as shipped no request is ever sent, and a non-blank search always ends in the failure state `Searched(…, Err(caught))` |
| TvStore.TvStore.BeginSearch | src/stores/tv.ts:98-105 | page 1 sets loading, clears the error, records the query and empties the current list; later pages set loadingMore |
| TvStore.TvStore.ReceiveSearchPage | src/stores/tv.ts:111-143 | the success and failure effects of a search |
| TvStore.TvStore.LoadMoreTvSeries | src/stores/tv.ts:146-160 | with the corrected search: nothing unless more can be loaded, nor after a search with an empty query; after a search the next search page and the state `Searched` for it (the cleared state for a blank query); after a popular load the next popular page and the state `PopularLoaded` for it; nothing after trending or top-rated |
| TvStore.TvStore.RetryLastAction | src/stores/tv.ts:175-183 | with the corrected search: page 1 of the last search and the state `Searched` for it when there is a query (the cleared state for a blank one), else page 1 of the popular list and the state `PopularLoaded` for it |
| TvStore.LaterPopularPageKeepsShown | src/stores/tv.ts:58-64 | a later popular page keeps the shown and the popular series already listed, in front, and leaves the search untouched |
| TvStore.LaterSearchPageKeepsShown | src/stores/tv.ts:114-120 | a later search page keeps the shown series and the results already listed, in front, and leaves the popular list untouched |
| TvStore.FirstPageStartsOver | src/stores/tv.ts:43-61 | a first page (as a retry loads) shows exactly its results with no error, or nothing and the failure's message |
| TvStore.TvStore.ClearAllData | src/stores/tv.ts:185-199 | every field returns to its initial value |
| TmdbApi.StatusText | src/api/tmdb.ts:337-344 | a message exactly for the statuses 400, 401, 404, 429, 500 and 503 |
| TmdbApi.StatusTextsDistinct | src/api/tmdb.ts:337-344 | different known statuses have different messages |
| TmdbApi.GetErrorMessage | src/api/tmdb.ts:331-358 | in order: the body's status message, the status table or "HTTP n: text", the network and timeout codes, the error's own message, and finally "An unknown error occurred"; never empty |
| TmdbApi.MessagePriority | src/api/tmdb.ts:332-355 | a status message or a status decides the message whatever the code and the message say; a network or timeout code overrides the message |
| TmdbApi.UnknownStatusesDistinct | src/api/tmdb.ts:346 | different unknown statuses give different "HTTP n: ..." lines |
| TmdbApi.SearchMovies | src/api/tmdb.ts:92-127 | a blank query succeeds with the empty page, no status and no request; otherwise the fetched page with the response's status, or the mapped error and the HTTP status |
| TmdbApi.GetMovieByTitle | src/api/tmdb.ts:160-199 | always successful; nothing when the search failed or found nothing; otherwise the first exact match, else the first result; the movie comes from the results |
| TmdbApi.BlankTitleFindsNothing | src/api/tmdb.ts:94-99 | a blank title sends no request and finds nothing |
| TmdbApi.ExactTitleChosen | src/api/tmdb.ts:174-178 | the first exact title match is chosen over earlier non-matching results |
| TmdbApi.GetConfigurationStatus | src/api/tmdb.ts:296-326 | valid exactly when there are no errors; the base-URL error exactly when it is missing; the credentials error exactly when both are missing |
| TmdbApi.ConfigurationValidIff | src/api/tmdb.ts:300-310 | valid exactly when there is a base URL and a key or a token; a warning never comes with the missing-credentials error |
| TmdbApi.GetImageUrl | src/api/tmdb.ts:372-375 | the placeholder for a missing or empty path; otherwise the image base, then the size, then the path |
| TmdbApi.GetBackdropUrl | src/api/tmdb.ts:377-380 | the backdrop placeholder for a missing or empty path; otherwise the image base, then the size, then the path |
| TmdbApi.ImageUrlsDistinct | src/api/tmdb.ts:374 | different paths at one size give different URLs |
| AuthService.Contains | src/services/auth.ts:226-232 | true exactly when some character lies in the range |
| AuthService.IsValidPassword | src/services/auth.ts:222-236 | valid exactly when the password has at least 6 characters, a lowercase letter, an uppercase letter and a digit; otherwise the message of the first check that fails |
| AuthService.ValidPasswordExtends | src/services/auth.ts:222-236 | a valid password stays valid when characters are appended |
| AuthService.IndexOf | src/services/auth.ts:217 | the first position of the character, or the length when absent |
| AuthService.ValidEmailMatches | src/services/auth.ts:216-219 | an accepted address matches the pattern: a non-empty local part, '@', a domain part, '.', a final part, none of them containing whitespace or '@' |
| AuthService.MatchIsValidEmail | src/services/auth.ts:216-219 | every string matching that pattern is accepted |
| AuthService.IsValidEmailMatchesPattern | src/services/auth.ts:216-219 | accepted exactly when the string matches the pattern |
| AuthService.HandleAuthError | src/services/auth.ts:196-213 | the table message for a known code, else the error's own message, else "An unexpected error occurred"; never empty |
| AuthService.RemoveFirst | src/services/auth.ts:187-192 | an unregistered callback changes nothing; otherwise exactly one occurrence is removed |
| AuthService.SubscribeThenUnsubscribe | src/services/auth.ts:183-192 | subscribing a new callback and then unsubscribing it restores the list |
| AuthService.UnsubscribeTwice | src/services/auth.ts:187-192 | for a callback registered once, a second unsubscribe changes nothing |
| AuthService.RemoveFirstKeepsOrder | src/services/auth.ts:188-190 | the first occurrence is the one removed, and the others keep their order |
| AuthService.IndexOfCallback | src/services/auth.ts:188 | the first index of the callback, or -1 when it is absent |
| AuthService.AuthService.constructor | src/services/auth.ts:74-82 | no listeners |
| AuthService.AuthService.OnAuthStateChange | src/services/auth.ts:183-185 | the callback is appended |
| AuthService.AuthService.Unsubscribe | src/services/auth.ts:187-192 | the first occurrence of the callback is removed |
| AuthService.AuthService.NotifyAll | src/services/auth.ts:78-81 | every listener gets the user, once each, in registration order |
| AuthService.Singleton.constructor | src/services/auth.ts:73 | no instance exists yet |
| AuthService.Singleton.GetInstance | src/services/auth.ts:84-89 | the first call makes a fresh service with no listeners; later calls return that same service |
| AuthApi.CodeText | src/api/auth.ts:237 | a present code as it is |
| AuthApi.GetAuthErrorMessage | src/api/auth.ts:212-238 | the table message for a known code, else "Authentication error: " followed by the code; never empty |
| AuthApi.UnknownCodesDistinguished | src/api/auth.ts:237 | different unknown codes give different messages |
| AuthApi.Failure | src/api/auth.ts:61-66 | unsuccessful, with no data and the mapped message |
| AuthApi.Report | src/api/auth.ts:52-59 | uid, e-mail and verification come from the provider's user, with the chosen display name |
| AuthApi.Login | src/api/auth.ts:42-67 | successful exactly when sign-in succeeds, reporting the user; otherwise the mapped failure |
| AuthApi.Register | src/api/auth.ts:72-104 | the profile update is sent exactly when a non-empty display name is given; success needs the creation and any update to succeed; the reported name is the given one, else the provider's |
| AuthApi.RegisterDisplayNameChoice | src/api/auth.ts:94 | a successful registration reports the given non-empty display name, else the provider's |
| AuthApi.Acknowledge | src/api/auth.ts:109-140 | logout and password reset succeed exactly when the call does; a failure has the mapped message |
| AuthApi.GetCurrentUser | src/api/auth.ts:145-172 | the signed-in user; "No authenticated user" when there is none; "Failed to get current user" when reading it throws |
| AuthApi.UpdateProfile | src/api/auth.ts:177-207 | with no user, "No authenticated user" and no update sent; otherwise the update is sent, and success reports the new name or the provider's; failure says "Failed to update profile" |
| AuthApi.CheckConfiguration | src/api/auth.ts:243-273 | one error for each missing key, in the order API key, auth domain, project ID; valid exactly when none is missing; "Failed to check Firebase configuration" when reading the options throws |
| AuthModal.Opened | src/composables/useAuth.ts:29-39 | open, on the given form, with the given message |
| AuthModal.Closed | src/composables/useAuth.ts:41-44 | closed with no message; the form is unchanged |
| AuthModal.LastMode | src/composables/useAuth.ts:29-39 | the form of the last open call, or the starting form when every call was a close |
| AuthModal.LastCallDecides | src/composables/useAuth.ts:29-44 | after any non-empty series of calls: open exactly when the last call opened; that call's message; the form of the last open |
| AuthModal.AuthModal.constructor | src/composables/useAuth.ts:24-27 | closed, on the login form, no message; the provided object copies these values |
| AuthModal.AuthModal.OpenLogin | src/composables/useAuth.ts:29-33 | open, on the login form, with the given message |
| AuthModal.AuthModal.OpenRegister | src/composables/useAuth.ts:35-39 | open, on the register form, with the given message |
| AuthModal.AuthModal.Close | src/composables/useAuth.ts:41-44 | closed with no message, on the same form |
| AuthModal.AuthModal.RunAll | src/composables/useAuth.ts:29-44 | the state after the series of calls, applied in order |
| AuthModal.StaleSnapshotWitness | src/composables/useAuth.ts:46-55 | after opening the register form, the provided object still says closed, login form, no message |
| AuthModal.LiveViewWitness | src/composables/useAuth.ts:24-44 | read from the live values, the modal is open after a series exactly when the last call opened it, showing that call's message |
| Text.TrimEmptyIffBlank | src/services/tmdb.ts:91 | a string trims to empty exactly when every character is whitespace |
| Text.Lower | src/services/tmdb.ts:95 | the same length, each character lower-cased |
| Text.LowerIdempotent | src/services/tmdb.ts:116 | lower-casing twice is lower-casing once |
| Text.ParseNatToString | src/services/tmdb.ts:85 | the decimal text of a number reads back as that number |
| Text.IntToStringInjective | src/services/tmdb.ts:105 | different integers have different decimal texts |
| Text.SplitAtLastSeparator | src/services/tmdb.ts:95 | when the part after a separator contains no separator, the split at the last separator is unique |
| Text.BeforeFirst | src/stores/user.ts:148 | the longest prefix without the separator; if it is not the whole string, the separator follows it |
| Common.OrElse | src/stores/movies.ts:61 | the first string when it is present and non-empty, else the fallback |
| Common.Take | src/stores/user.ts:160 | the first n elements, or all of them when there are fewer |

## Left out

- The network, axios, Firebase and the Gemini HTTP call are outside the model.
  Each awaited reply is a parameter. The prompt text (`createRecommendationPrompt`)
  and the cleanup and `JSON.parse` of the Gemini reply are outside it too; the
  reply comes in already parsed, as `AiReply`.
- The TV endpoints the tv store imports (`getPopularTVSeries` and the others) and
  `TMDBAPI.getSimilarMovies` are not defined in src/api/tmdb.ts, so they are not
  part of this model. Their replies are parameters.
- The clock and randomness are parameters: `Date.now()` becomes `now`, and
  `Math.random()` ids become `generated` or `id`. One `now` serves a whole call,
  although the source reads the clock more than once.
- The toast auto-removal timer (`setTimeout`) is left out. So are the `action`
  field, options that set `id` or `createdAt`, and the auth-specific toast helpers
  from src/services/toast.ts:109 onwards.
- Lower-casing and the `[a-z]`/`[A-Z]` classes are ASCII only.
- String lengths count characters, not UTF-16 code units.
- `encodeURIComponent` on queries is not modelled.
- `formatReleaseDate` is left out: date parsing is outside the model.
- Persistence to localStorage, `loadFromLocalStorage` and `exportUserData` are left
  out, as are the console logs.
- The exported aliases at src/api/tmdb.ts:362-369 and src/api/auth.ts:277-283
  detach the methods from their class, so `this` inside them is unbound. The model
  calls the class methods.
- The other movie endpoints (`getPopularMovies`, `getMovieDetails`, trending,
  top-rated, `testConfiguration` in src/api/tmdb.ts) are left out. The stores
  receive their replies as parameters.
- `mapFirebaseUser` is left out: listeners receive the already-mapped user.
- The Firebase listener registration itself is left out: `NotifyAll` stands for
  its callback.
- `useAuthCheck` and `useAuthModal` in src/composables/useAuth.ts are left out
  (the latter is spelled `useAuxthModal` there).
- Promise interleavings are left out: each store action runs to completion. The
  `Begin…`/`Receive…` methods split one action at its `await` and are not separate
  operations of the source.
- Two lookups in the error tables behave differently in the model:
  - Looking up an inherited property name such as `"constructor"` in the JavaScript
    object returns a function. The model treats such codes as unknown.
  - A spread option whose value is `undefined` still overrides in JavaScript. The
    model treats an absent option as not given.
- UserStore.UserStoreState.GetMovieStats: does not compute `averageRating`, because
  it is a floating-point mean rounded by `toFixed`. Ties in the count order are not
  specified.
- AiRecommendations.AiRecommendationService.CollectRecommendations: an entry whose
  title lookup is missing from the supplied list counts as a failed lookup.
- AuthService.IsValidPassword: counts the length in characters, whereas JavaScript
  counts UTF-16 code units.
- Each entry of the reply's `recommendations` array is taken to be an object
  (`AiRec`). A `null` or non-object entry makes `aiRec.title` throw, the inner
  `catch` at src/services/ai-recommendations.ts:225 reads it again and throws, and
  the outer `catch` (lines 231-233) fails the whole reply with "Failed to parse AI
  recommendations"; the model has no value for such an entry, so
  `ParseOutcomeSpec` does not cover that case.
- AiRecommendations.ClampConfidence: takes the parsed confidence as an integer or
  missing. A fraction such as 8.5 is kept as is by the source, a numeric string
  such as "8" is coerced, and a non-numeric value gives NaN, which `Math.min` and
  `Math.max` pass through; none of these is modelled, so "always 1..10" (and the
  same bound in `CandidatesShaped`) holds only for integer confidences.
- TvStore.TvStore.LoadMoreTvSeries: after a search it goes through the corrected
  `SearchTvSeries`. As written, src/stores/tv.ts:156 calls the self-recursive
  action of the tv.ts:109 finding, so no request is sent and the store ends as
  `SearchTvSeriesAsWritten` leaves it.
- TvStore.TvStore.RetryLastAction: after a search it goes through the corrected
  `SearchTvSeries`. As written, src/stores/tv.ts:179 calls the same self-recursive
  action, with the same outcome.
- AuthService.UnsubscribeTwice: "a second unsubscribe does nothing" holds only for
  a callback that was registered once. With duplicates, each call removes one more
  occurrence; `RemoveFirst` states that case.

## Findings

| source | as written | input that shows it | evidently intended | confidence | as-written member | corrected member |
|---|---|---|---|---|---|---|
| src/services/ai-recommendations.ts:249 | the fallback calls `TMDBAPI.getSimilarMovies`, which src/api/tmdb.ts does not define; the call throws, lines 265-267 catch it, and the fallback returns `[]` | any liked list, for example three liked movies after the AI call fails | up to six similar movies from the last three liked ones, excluding liked and repeated ids | medium, not executed | AiRecommendations.FallbackAsShippedIsEmpty | AiRecommendations.FallbackSpec |
| src/stores/tv.ts:109 | the store's own `searchTVSeries` (line 91) shadows the imported one (line 5), so the action awaits itself with the same arguments until the stack overflows; no request is made. `loadMoreTVSeries` (line 156) and `retryLastAction` (line 179) call the same action, so they send no search request either; `LoadMoreTvSeries` and `RetryLastAction` use the corrected one | `searchTVSeries("office", 1)` | request the page and store the results | high, not executed | TvStore.TvStore.SearchTvSeriesAsWritten | TvStore.TvStore.SearchTvSeries |
| src/composables/useAuth.ts:46-53 | the provided object copies `isOpen.value`, `mode.value` and `message.value` once, so injecting components never see later changes | `openRegister("Sign up")` leaves the provided object closed, on the login form | provide the live state | high, not executed | AuthModal.StaleSnapshotWitness | AuthModal.LiveViewWitness |
