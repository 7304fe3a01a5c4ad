/** The AI recommendation service (`AIRecommendationService` in
    src/services/ai-recommendations.ts): a guard on the number of liked movies,
    a bounded response cache keyed by the sorted liked ids with a 30-minute
    lifetime, the shaping of the parsed AI reply into at most six
    recommendations, and the "similar movies" fallback. The AI service's
    parsed reply, the per-recommendation title lookups and the similar-movie
    responses are parameters, as is the clock. */
module AiRecommendations {

  import opened Common
  import opened Text
  import opened OrderedMap
  import opened MovieTypes
  import opened Loader

  const CacheDuration: int := 30 * 60 * 1000
  const MaxCacheEntries: nat := 50
  const MaxRecommendations: nat := 6
  const MinLikedMovies: nat := 3
  const FallbackSources: nat := 3
  const DefaultConfidence: int := 7

  const InsufficientExplanation: string := "Please like at least 3 movies to get AI recommendations."
  const InsufficientError: string := "Insufficient data for AI recommendations"
  const FallbackExplanation: string :=
    "AI service temporarily unavailable. Showing similar movies based on your preferences."
  const ServiceFailed: string := "AI recommendation service failed"
  const ParseFailure: string := "Failed to parse AI recommendations"
  const DefaultReason: string := "Recommended based on your preferences"
  const DefaultExplanation: string := "AI-powered recommendations based on your movie preferences."
  const LoaderLabel: string := "Generating AI recommendations..."

  /** `AIRecommendation` */
  datatype AiRecommendation = AiRecommendation(movie: Movie, reason: string, confidence: int, aiGenerated: bool)

  /** `AIRecommendationResponse` */
  datatype AiResponse = AiResponse(
    success: bool,
    recommendations: seq<AiRecommendation>,
    aiExplanation: string,
    error: Option<string>)

  /** One entry of the reply's `recommendations` array. Absent fields are `None`;
      a confidence of 0 is falsy in the source and treated like an absent one. */
  datatype AiRec = AiRec(title: Option<string>, year: Option<string>, reason: Option<string>, confidence: Option<int>)

  /** The AI text after JSON parsing: unparseable, or an object whose
      `recommendations` is an array (`Some`) or missing / not an array (`None`). */
  datatype AiReply =
    | Unparseable
    | Parsed(recommendations: Option<seq<AiRec>>, explanation: Option<string>)

  // ---------------------------------------------------------------------------
  // The cache key

  predicate SortedAsc(s: seq<int>) {
    forall i, j :: 0 <= i < j < |s| ==> s[i] <= s[j]
  }

  function Insert(x: int, s: seq<int>): (r: seq<int>)
    requires SortedAsc(s)
    ensures SortedAsc(r)
    ensures multiset(r) == multiset(s) + multiset{x}
    ensures |r| == |s| + 1
    ensures r[0] == x || (|s| > 0 && r[0] == s[0])
  {
    if |s| == 0 then [x]
    else if x <= s[0] then [x] + s
    else
      var tail := Insert(x, s[1..]);
      assert s == [s[0]] + s[1..];
      [s[0]] + tail
  }

  /** `ids.sort((a, b) => a - b)` */
  function SortAsc(s: seq<int>): (r: seq<int>)
    ensures SortedAsc(r)
    ensures multiset(r) == multiset(s)
  {
    if |s| == 0 then []
    else
      assert s == [s[0]] + s[1..];
      Insert(s[0], SortAsc(s[1..]))
  }

  lemma SortedHeadIsLeast(a: seq<int>, x: int)
    requires SortedAsc(a) && x in multiset(a)
    ensures |a| > 0 && a[0] <= x
  {
    assert x in a;
    var i :| 0 <= i < |a| && a[i] == x;
  }

  /** A sorted arrangement of a multiset is unique. */
  lemma {:induction false} SortedUnique(a: seq<int>, b: seq<int>)
    requires SortedAsc(a) && SortedAsc(b) && multiset(a) == multiset(b)
    ensures a == b
    decreases |a|
  {
    if |a| == 0 {
      assert |multiset(b)| == 0;
    } else {
      assert a[0] in multiset(a);
      SortedHeadIsLeast(b, a[0]);
      assert b[0] in multiset(b);
      SortedHeadIsLeast(a, b[0]);
      assert a == [a[0]] + a[1..];
      assert b == [b[0]] + b[1..];
      assert a[0] == b[0];
      assert multiset(a[1..]) == multiset(a) - multiset{a[0]} by {
        assert multiset(a) == multiset([a[0]]) + multiset(a[1..]);
      }
      assert multiset(b[1..]) == multiset(b) - multiset{b[0]} by {
        assert multiset(b) == multiset([b[0]]) + multiset(b[1..]);
      }
      SortedUnique(a[1..], b[1..]);
    }
  }

  /** `generateCacheKey(likedMovies)` */
  function GenerateCacheKey(liked: seq<Movie>): string {
    "ai-recommendations-" + JoinInts(SortAsc(Ids(liked)), "-")
  }

  /** The key depends on the liked ids only, not on the order they were liked in. */
  lemma CacheKeyIgnoresOrder(a: seq<Movie>, b: seq<Movie>)
    requires multiset(Ids(a)) == multiset(Ids(b))
    ensures GenerateCacheKey(a) == GenerateCacheKey(b)
  {
    SortedUnique(SortAsc(Ids(a)), SortAsc(Ids(b)));
  }

  // ---------------------------------------------------------------------------
  // The bounded, expiring cache

  datatype CacheEntry = CacheEntry(data: AiResponse, timestamp: int)

  type AiCache = OMap<string, CacheEntry>

  predicate IsExpired(e: CacheEntry, now: int) {
    now - e.timestamp > CacheDuration
  }

  /** What `getFromCache` returns, and the cache after it (an expired entry is deleted). */
  datatype CacheRead = CacheRead(hit: Option<AiResponse>, cache: AiCache)

  function GetFromCache(cache: AiCache, key: string, now: int): (r: CacheRead)
    requires cache.Valid()
    ensures r.cache.Valid()
  {
    if key !in cache.values then CacheRead(None, cache)
    else if IsExpired(cache.values[key], now) then CacheRead(None, cache.Remove(key))
    else CacheRead(Some(cache.values[key].data), cache)
  }

  /** A lookup hits exactly when a live entry exists, and then returns its data
      unchanged; a stale entry is gone afterwards and no other entry is touched. */
  lemma GetFromCacheSpec(cache: AiCache, key: string, now: int)
    requires cache.Valid()
    ensures var r := GetFromCache(cache, key, now);
            (r.hit.Some? <==> key in cache.values && !IsExpired(cache.values[key], now)) &&
            (r.hit.Some? ==> r.hit.value == cache.values[key].data && r.cache == cache) &&
            (r.hit.None? ==> r.cache.values == cache.values - {key} && r.cache.keys == Without(cache.keys, key))
  {
    if key !in cache.values {
      WithoutAbsent(cache.keys, key);
      assert cache.values - {key} == cache.values;
    } else if IsExpired(cache.values[key], now) {
      var removed := cache.Remove(key);
      assert GetFromCache(cache, key, now) == CacheRead(None, removed);
    }
  }

  /** The cache bookkeeping the service keeps: a valid map, at most 50 entries, no empty key. */
  predicate CacheInvariant(cache: AiCache) {
    cache.Valid() && |cache.values| <= MaxCacheEntries &&
    forall k :: k in cache.values ==> k != ""
  }

  /** `setCache(key, data)`: store, then evict the first-inserted key (when truthy)
      if the cache holds more than 50 entries. */
  function SetCache(cache: AiCache, key: string, data: AiResponse, now: int): (r: AiCache)
    requires cache.Valid()
    ensures r.Valid()
  {
    var stored := cache.Put(key, CacheEntry(data, now));
    if stored.Size() > MaxCacheEntries && stored.keys[0] != "" then stored.Remove(stored.keys[0])
    else stored
  }

  /** With the invariant in force, `setCache` keeps it, stores the entry under its
      key, and evicts at most one entry: the oldest-inserted one, and only when a
      new key would make the count 51. */
  lemma SetCacheSpec(cache: AiCache, key: string, data: AiResponse, now: int)
    requires CacheInvariant(cache) && key != ""
    ensures var r := SetCache(cache, key, data, now);
            CacheInvariant(r) &&
            key in r.values && r.values[key] == CacheEntry(data, now) &&
            (key in cache.values || |cache.values| < MaxCacheEntries ==>
               r.values == cache.values[key := CacheEntry(data, now)]) &&
            (key !in cache.values && |cache.values| == MaxCacheEntries ==>
               r.values == cache.values[key := CacheEntry(data, now)] - {cache.keys[0]} &&
               r.keys == cache.keys[1..] + [key])
  {
    var stored := cache.Put(key, CacheEntry(data, now));
    SizeIsCardinality(cache);
    SizeIsCardinality(stored);
    if key !in cache.values && |cache.values| == MaxCacheEntries {
      SetCacheEvicts(cache, key, data, now);
    } else {
      assert SetCache(cache, key, data, now) == stored;
    }
  }

  lemma SetCacheEvicts(cache: AiCache, key: string, data: AiResponse, now: int)
    requires CacheInvariant(cache) && key != "" && key !in cache.values && |cache.values| == MaxCacheEntries
    ensures var r := SetCache(cache, key, data, now);
            r.values == cache.values[key := CacheEntry(data, now)] - {cache.keys[0]} &&
            r.keys == cache.keys[1..] + [key] && |r.values| == MaxCacheEntries
  {
    var stored := cache.Put(key, CacheEntry(data, now));
    SizeIsCardinality(cache);
    assert stored.keys == cache.keys + [key];
    assert stored.keys[0] == cache.keys[0] && cache.keys[0] in cache.values;
    WithoutHead(stored.keys);
    assert stored.keys[1..] == cache.keys[1..] + [key];
    var r := stored.Remove(stored.keys[0]);
    assert r == SetCache(cache, key, data, now);
    SizeIsCardinality(r);
  }

  /** Deleting the head of a repetition-free sequence drops the head only. */
  lemma WithoutHead<K>(s: seq<K>)
    requires Distinct(s) && |s| > 0
    ensures Without(s, s[0]) == s[1..]
  {
    assert s[0] !in s[1..];
    WithoutAbsent(s[1..], s[0]);
    assert s == [s[0]] + s[1..];
  }

  // ---------------------------------------------------------------------------
  // Shaping the parsed reply

  /** `${title || ''} ${year || ''}`.trim() */
  function SearchQuery(rec: AiRec): string {
    Trim(OrElse(rec.title, "") + " " + OrElse(rec.year, ""))
  }

  /** `Math.min(Math.max(confidence || 7, 1), 10)` */
  function ClampConfidence(c: Option<int>): (r: int)
    ensures 1 <= r <= 10
    ensures c.Some? && 1 <= c.value <= 10 ==> r == c.value
    ensures c.None? || c.value == 0 ==> r == DefaultConfidence
    ensures c.Some? && c.value != 0 && c.value < 1 ==> r == 1
    ensures c.Some? && c.value > 10 ==> r == 10
  {
    var v := if c.None? || c.value == 0 then DefaultConfidence else c.value;
    if v < 1 then 1 else if v > 10 then 10 else v
  }

  function LikedTitles(liked: seq<Movie>): (titles: seq<string>)
    ensures |titles| == |liked|
    ensures forall i :: 0 <= i < |liked| ==> titles[i] == Lower(liked[i].title)
  {
    seq(|liked|, i requires 0 <= i < |liked| => Lower(liked[i].title))
  }

  /** The lookup response for the `i`-th recommendation; `None` stands for a failed
      lookup, a `null` result or a lookup that threw. Positions past the supplied
      list count as failed. */
  function LookupAt(lookups: seq<Option<Movie>>, i: nat): Option<Movie> {
    if i < |lookups| then lookups[i] else None
  }

  /** The recommendation a well-formed reply yields for an entry: AI-generated, with
      a confidence in [1, 10], for a movie whose title the user has not liked. */
  predicate Shaped(r: AiRecommendation, likedTitles: seq<string>) {
    r.aiGenerated && 1 <= r.confidence <= 10 && Lower(r.movie.title) !in likedTitles
  }

  /** What one entry of the reply contributes: nothing for an empty query, a failed
      lookup or an already liked title, else one recommendation. */
  function Contribution(rec: AiRec, found: Option<Movie>, likedTitles: seq<string>): (c: seq<AiRecommendation>)
    ensures c == [] || (|c| == 1 && Shaped(c[0], likedTitles))
  {
    if Accepted(rec, found, likedTitles) then [Recommend(rec, found.value)] else []
  }

  /** The entry has a non-empty query, its lookup found a movie and the user has not
      liked a movie of that title. */
  predicate Accepted(rec: AiRec, found: Option<Movie>, likedTitles: seq<string>) {
    SearchQuery(rec) != "" && found.Some? && Lower(found.value.title) !in likedTitles
  }

  /** The recommendation built from an entry and the movie its lookup found. */
  function Recommend(rec: AiRec, movie: Movie): AiRecommendation {
    AiRecommendation(movie, OrElse(rec.reason, DefaultReason), ClampConfidence(rec.confidence), true)
  }

  /** The recommendations the loop would collect from the entries `recs` without
      the cap of six. */
  function Candidates(recs: seq<AiRec>, lookups: seq<Option<Movie>>, likedTitles: seq<string>): (c: seq<AiRecommendation>)
    ensures |c| <= |recs|
  {
    if |recs| == 0 then []
    else
      var n := |recs| - 1;
      Candidates(recs[..n], lookups, likedTitles) + Contribution(recs[n], LookupAt(lookups, n), likedTitles)
  }

  /** Every collected recommendation is well-formed. */
  lemma {:induction false} CandidatesShaped(recs: seq<AiRec>, lookups: seq<Option<Movie>>, likedTitles: seq<string>)
    ensures forall i :: 0 <= i < |Candidates(recs, lookups, likedTitles)| ==>
              Shaped(Candidates(recs, lookups, likedTitles)[i], likedTitles)
  {
    if |recs| > 0 {
      CandidatesShaped(recs[..|recs| - 1], lookups, likedTitles);
    }
  }

  lemma CandidatesStep(recs: seq<AiRec>, k: nat, lookups: seq<Option<Movie>>, likedTitles: seq<string>)
    requires k < |recs|
    ensures Candidates(recs[..k + 1], lookups, likedTitles) ==
            Candidates(recs[..k], lookups, likedTitles) + Contribution(recs[k], LookupAt(lookups, k), likedTitles)
  {
    assert recs[..k + 1][..k] == recs[..k];
  }

  /** Collecting from a prefix of the entries gives a prefix of the full collection. */
  lemma {:induction false} CandidatesPrefix(recs: seq<AiRec>, k: nat, lookups: seq<Option<Movie>>, likedTitles: seq<string>)
    requires k <= |recs|
    ensures var c := Candidates(recs, lookups, likedTitles);
            var p := Candidates(recs[..k], lookups, likedTitles);
            |p| <= |c| && c[..|p|] == p
    decreases |recs|
  {
    if k < |recs| {
      var n := |recs| - 1;
      CandidatesPrefix(recs[..n], k, lookups, likedTitles);
      assert recs[..n][..k] == recs[..k];
      var c := Candidates(recs, lookups, likedTitles);
      var init := Candidates(recs[..n], lookups, likedTitles);
      var p := Candidates(recs[..k], lookups, likedTitles);
      assert c == init + Contribution(recs[n], LookupAt(lookups, n), likedTitles);
      assert c[..|init|] == init;
      PrefixOfPrefix(p, init, c);
    } else {
      assert recs[..k] == recs;
    }
  }

  lemma PrefixOfPrefix<T>(a: seq<T>, b: seq<T>, c: seq<T>)
    requires |a| <= |b| <= |c| && b[..|a|] == a && c[..|b|] == b
    ensures c[..|a|] == a
  {
    assert c[..|a|] == c[..|b|][..|a|];
  }

  /** Once the collection from a prefix holds six recommendations, the capped
      collection from all entries is exactly that. */
  lemma CapReached(recs: seq<AiRec>, k: nat, lookups: seq<Option<Movie>>, likedTitles: seq<string>)
    requires k <= |recs| && |Candidates(recs[..k], lookups, likedTitles)| == MaxRecommendations
    ensures Take(Candidates(recs, lookups, likedTitles), MaxRecommendations) == Candidates(recs[..k], lookups, likedTitles)
  {
    CandidatesPrefix(recs, k, lookups, likedTitles);
  }

  /** `parseAndFetchMovies` as a function of the parsed reply. */
  function ParseOutcome(reply: AiReply, liked: seq<Movie>, lookups: seq<Option<Movie>>): Result<seq<AiRecommendation>, string> {
    if reply.Unparseable? || reply.recommendations.None? then Err(ParseFailure)
    else Ok(Take(Candidates(reply.recommendations.value, lookups, LikedTitles(liked)), MaxRecommendations))
  }

  /** A reply without a usable `recommendations` array fails with the parse message;
      otherwise there are at most six recommendations, each AI-generated, with a
      confidence in [1, 10] and a title the user has not liked. */
  lemma ParseOutcomeSpec(reply: AiReply, liked: seq<Movie>, lookups: seq<Option<Movie>>)
    ensures var r := ParseOutcome(reply, liked, lookups);
            (r.Err? <==> reply.Unparseable? || reply.recommendations.None?) &&
            (r.Err? ==> r.error == ParseFailure) &&
            (r.Ok? ==> |r.value| <= MaxRecommendations &&
                       forall i :: 0 <= i < |r.value| ==> Shaped(r.value[i], LikedTitles(liked)))
  {
    if reply.Parsed? && reply.recommendations.Some? {
      CandidatesShaped(reply.recommendations.value, lookups, LikedTitles(liked));
    }
  }

  /** `extractAIExplanation(aiResponse)` */
  function ExtractExplanation(reply: AiReply): (s: string)
    ensures reply.Parsed? && Truthy(reply.explanation) ==> s == reply.explanation.value
    ensures !(reply.Parsed? && Truthy(reply.explanation)) ==> s == DefaultExplanation
  {
    if reply.Parsed? then OrElse(reply.explanation, DefaultExplanation) else DefaultExplanation
  }

  // ---------------------------------------------------------------------------
  // The fallback

  /** The outcome of `getSimilarMovies` for one source movie. */
  datatype SimilarResponse = SimilarOk(results: seq<Movie>) | SimilarFailed | SimilarThrew

  function SimilarAt(similar: seq<SimilarResponse>, i: nat): SimilarResponse {
    if i < |similar| then similar[i] else SimilarFailed
  }

  /** `likedMovies.slice(-3)` */
  function LastThree(liked: seq<Movie>): (r: seq<Movie>)
    ensures |r| == if |liked| < FallbackSources then |liked| else FallbackSources
    ensures r == liked[|liked| - |r|..]
  {
    if |liked| < FallbackSources then liked else liked[|liked| - FallbackSources..]
  }

  function SimilarReason(source: Movie): string {
    "Similar to \"" + source.title + "\" which you loved"
  }

  datatype FallbackState = FallbackState(recs: seq<AiRecommendation>, seen: set<int>)

  /** One `similar` movie offered to the fallback list. */
  function Offer(st: FallbackState, similar: Movie, source: Movie): FallbackState {
    if similar.id !in st.seen && |st.recs| < MaxRecommendations then
      FallbackState(st.recs + [AiRecommendation(similar, SimilarReason(source), DefaultConfidence, false)],
                    st.seen + {similar.id})
    else st
  }

  /** The inner loop over one response's results, as a fold over its first `|sims|` movies. */
  function OfferAll(st: FallbackState, sims: seq<Movie>, source: Movie): FallbackState {
    if |sims| == 0 then st
    else Offer(OfferAll(st, sims[..|sims| - 1], source), sims[|sims| - 1], source)
  }

  datatype Progress = Progress(state: FallbackState, aborted: bool)

  /** The outer loop after its first `n` source movies; a throwing request aborts it. */
  function FallbackRun(init: FallbackState, sources: seq<Movie>, similar: seq<SimilarResponse>, n: nat): Progress
    requires n <= |sources|
  {
    if n == 0 then Progress(init, false)
    else
      var p := FallbackRun(init, sources, similar, n - 1);
      if p.aborted then p
      else match SimilarAt(similar, n - 1)
        case SimilarThrew => Progress(p.state, true)
        case SimilarFailed => p
        case SimilarOk(results) => Progress(OfferAll(p.state, results, sources[n - 1]), false)
  }

  function FallbackStart(liked: seq<Movie>): FallbackState {
    FallbackState([], set m | m in liked :: m.id)
  }

  /** `getFallbackRecommendations(likedMovies)`, with `similar[i]` the response for
      the i-th of the last three liked movies. */
  function Fallback(liked: seq<Movie>, similar: seq<SimilarResponse>): seq<AiRecommendation> {
    var sources := LastThree(liked);
    FallbackRun(FallbackStart(liked), sources, similar, |sources|).state.recs
  }

  /** What the fallback keeps true while it collects: at most six entries, all with
      confidence 7 and not AI-generated, pairwise distinct ids, no liked id, and
      every collected id recorded as seen. */
  predicate FallbackInv(st: FallbackState, likedIds: set<int>) {
    |st.recs| <= MaxRecommendations &&
    likedIds <= st.seen &&
    (forall i :: 0 <= i < |st.recs| ==>
       st.recs[i].movie.id in st.seen && st.recs[i].movie.id !in likedIds &&
       st.recs[i].confidence == DefaultConfidence && !st.recs[i].aiGenerated) &&
    (forall i, j :: 0 <= i < j < |st.recs| ==> st.recs[i].movie.id != st.recs[j].movie.id)
  }

  lemma OfferKeepsInv(st: FallbackState, similar: Movie, source: Movie, likedIds: set<int>)
    requires FallbackInv(st, likedIds)
    ensures FallbackInv(Offer(st, similar, source), likedIds)
  {
  }

  lemma {:induction false} OfferAllKeepsInv(st: FallbackState, sims: seq<Movie>, source: Movie, likedIds: set<int>)
    requires FallbackInv(st, likedIds)
    ensures FallbackInv(OfferAll(st, sims, source), likedIds)
  {
    if |sims| > 0 {
      OfferAllKeepsInv(st, sims[..|sims| - 1], source, likedIds);
      OfferKeepsInv(OfferAll(st, sims[..|sims| - 1], source), sims[|sims| - 1], source, likedIds);
    }
  }

  lemma {:induction false} FallbackRunKeepsInv(init: FallbackState, sources: seq<Movie>, similar: seq<SimilarResponse>,
                                               n: nat, likedIds: set<int>)
    requires n <= |sources| && FallbackInv(init, likedIds)
    ensures FallbackInv(FallbackRun(init, sources, similar, n).state, likedIds)
  {
    if n > 0 {
      FallbackRunKeepsInv(init, sources, similar, n - 1, likedIds);
      var p := FallbackRun(init, sources, similar, n - 1);
      if !p.aborted && SimilarAt(similar, n - 1).SimilarOk? {
        OfferAllKeepsInv(p.state, SimilarAt(similar, n - 1).results, sources[n - 1], likedIds);
      }
    }
  }

  /** The fallback list holds at most six movies, never a liked one, never the
      same movie twice, each with confidence 7 and marked as not AI-generated. */
  lemma FallbackSpec(liked: seq<Movie>, similar: seq<SimilarResponse>)
    ensures var r := Fallback(liked, similar);
            |r| <= MaxRecommendations &&
            (forall i :: 0 <= i < |r| ==>
               r[i].confidence == DefaultConfidence && !r[i].aiGenerated &&
               forall m :: m in liked ==> r[i].movie.id != m.id) &&
            (forall i, j :: 0 <= i < j < |r| ==> r[i].movie.id != r[j].movie.id)
  {
    var likedIds := set m | m in liked :: m.id;
    FallbackRunKeepsInv(FallbackStart(liked), LastThree(liked), similar, |LastThree(liked)|, likedIds);
  }

  /** Once aborted, the outer loop stays where it stopped. */
  lemma {:induction false} AbortedStays(init: FallbackState, sources: seq<Movie>, similar: seq<SimilarResponse>, n: nat, m: nat)
    requires n <= m <= |sources| && FallbackRun(init, sources, similar, n).aborted
    ensures FallbackRun(init, sources, similar, m) == FallbackRun(init, sources, similar, n)
    decreases m - n
  {
    if m > n {
      AbortedStays(init, sources, similar, n, m - 1);
    }
  }

  /** The fallback as shipped: `TMDBAPI.getSimilarMovies` is not a member of the
      movie API client, so its first call throws and the list stays empty. */
  function FallbackAsShipped(liked: seq<Movie>): seq<AiRecommendation> {
    Fallback(liked, seq(|LastThree(liked)|, _ => SimilarThrew))
  }

  lemma FallbackAsShippedIsEmpty(liked: seq<Movie>)
    ensures FallbackAsShipped(liked) == []
  {
    var sources := LastThree(liked);
    var similar := seq(|sources|, _ => SimilarThrew);
    if |sources| > 0 {
      assert FallbackRun(FallbackStart(liked), sources, similar, 1).aborted;
      AbortedStays(FallbackStart(liked), sources, similar, 1, |sources|);
    }
  }

  // ---------------------------------------------------------------------------
  // The whole request

  function Insufficient(): AiResponse {
    AiResponse(false, [], InsufficientExplanation, Some(InsufficientError))
  }

  /** The response of one `generateRecommendations` call, the cache afterwards and
      whether the AI service was asked. `gemini` is the parsed AI reply or the
      message of what the call threw. */
  datatype Generated = Generated(response: AiResponse, cache: AiCache, askedService: bool)

  function GenerateOutcome(cache: AiCache, liked: seq<Movie>, now: int, gemini: Result<AiReply, string>,
                           lookups: seq<Option<Movie>>, similar: seq<SimilarResponse>): (g: Generated)
    requires cache.Valid()
    ensures g.cache.Valid()
  {
    if |liked| < MinLikedMovies then Generated(Insufficient(), cache, false)
    else
      var key := GenerateCacheKey(liked);
      var read := GetFromCache(cache, key, now);
      if read.hit.Some? then Generated(read.hit.value, read.cache, false)
      else RequestOutcome(read.cache, key, liked, now, gemini, lookups, similar)
  }

  /** The request made on a cache miss: a parsed reply is cached and returned, any
      failure returns the uncached fallback. */
  function RequestOutcome(cache: AiCache, key: string, liked: seq<Movie>, now: int, gemini: Result<AiReply, string>,
                          lookups: seq<Option<Movie>>, similar: seq<SimilarResponse>): (g: Generated)
    requires cache.Valid()
    ensures g.cache.Valid()
  {
    var attempt := if gemini.Err? then Err(gemini.error) else ParseOutcome(gemini.value, liked, lookups);
    match attempt
    case Ok(recs) =>
      var response := AiResponse(true, recs, ExtractExplanation(gemini.value), None);
      Generated(response, SetCache(cache, key, response, now), true)
    case Err(msg) =>
      Generated(AiResponse(false, Fallback(liked, similar), FallbackExplanation,
                           Some(if msg == "" then ServiceFailed else msg)),
                cache, true)
  }

  /** The loader id of a request made for `count` liked movies. */
  function RequestId(count: nat): string {
    "ai-recommendations-" + IntToString(count)
  }

  /** Fewer than three liked movies: the fixed refusal, no cache access, no request. */
  lemma TooFewLikes(cache: AiCache, liked: seq<Movie>, now: int, gemini: Result<AiReply, string>,
                    lookups: seq<Option<Movie>>, similar: seq<SimilarResponse>)
    requires cache.Valid() && |liked| < MinLikedMovies
    ensures var g := GenerateOutcome(cache, liked, now, gemini, lookups, similar);
            !g.response.success && g.response.recommendations == [] &&
            g.response.error == Some(InsufficientError) &&
            g.response.aiExplanation == InsufficientExplanation &&
            g.cache == cache && !g.askedService
  {
  }

  /** A live cached response is returned as stored, without asking the service. */
  lemma CachedResponseServed(cache: AiCache, liked: seq<Movie>, now: int, gemini: Result<AiReply, string>,
                             lookups: seq<Option<Movie>>, similar: seq<SimilarResponse>)
    requires cache.Valid() && |liked| >= MinLikedMovies
    requires GenerateCacheKey(liked) in cache.values
    requires !IsExpired(cache.values[GenerateCacheKey(liked)], now)
    ensures var g := GenerateOutcome(cache, liked, now, gemini, lookups, similar);
            g.response == cache.values[GenerateCacheKey(liked)].data && g.cache == cache && !g.askedService
  {
  }

  /** Only successful AI results are cached: a failure returns the fallback with
      its fixed explanation and stores nothing new under the key. */
  lemma OnlySuccessIsCached(cache: AiCache, liked: seq<Movie>, now: int, gemini: Result<AiReply, string>,
                            lookups: seq<Option<Movie>>, similar: seq<SimilarResponse>)
    requires CacheInvariant(cache)
    ensures var g := GenerateOutcome(cache, liked, now, gemini, lookups, similar);
            var key := GenerateCacheKey(liked);
            CacheInvariant(g.cache) &&
            (g.askedService && g.response.success ==>
               key in g.cache.values && g.cache.values[key] == CacheEntry(g.response, now)) &&
            (g.askedService && !g.response.success ==>
               key !in g.cache.values && g.cache.values.Keys <= cache.values.Keys &&
               g.response.recommendations == Fallback(liked, similar) &&
               g.response.aiExplanation == FallbackExplanation)
  {
    var g := GenerateOutcome(cache, liked, now, gemini, lookups, similar);
    var key := GenerateCacheKey(liked);
    if |liked| >= MinLikedMovies {
      var read := GetFromCache(cache, key, now);
      SizeIsCardinality(cache);
      SizeIsCardinality(read.cache);
      assert CacheInvariant(read.cache);
      if read.hit.None? && g.response.success {
        SetCacheSpec(read.cache, key, g.response, now);
      }
    }
  }

  /** The service keeps the cache in its invariant and its instance state in one place. */
  class AiRecommendationService {
    var cache: AiCache

    ghost predicate Valid()
      reads this
    {
      CacheInvariant(cache)
    }

    constructor ()
      ensures Valid() && cache == Empty()
    {
      cache := Empty();
    }

    /** `getFromCache(key)` */
    method GetFromCacheAt(key: string, now: int) returns (hit: Option<AiResponse>)
      requires Valid()
      modifies this
      ensures Valid()
      ensures CacheRead(hit, cache) == GetFromCache(old(cache), key, now)
    {
      var read := GetFromCache(cache, key, now);
      SizeIsCardinality(cache);
      SizeIsCardinality(read.cache);
      hit, cache := read.hit, read.cache;
    }

    /** `setCache(key, data)` */
    method SetCacheAt(key: string, data: AiResponse, now: int)
      requires Valid() && key != ""
      modifies this
      ensures Valid()
      ensures cache == SetCache(old(cache), key, data, now)
    {
      SetCacheSpec(cache, key, data, now);
      cache := SetCache(cache, key, data, now);
    }

    /** `clearCache()` */
    method ClearCache()
      modifies this
      ensures Valid() && cache == Empty()
    {
      cache := Empty();
    }

    /** `getCacheStatus()`: the number of entries and the keys in insertion order. */
    function GetCacheStatus(): (s: (nat, seq<string>))
      reads this
      requires Valid()
      ensures s.0 == |s.1| == |cache.values| <= MaxCacheEntries
      ensures forall k :: k in cache.values <==> k in s.1
    {
      SizeIsCardinality(cache);
      (cache.Size(), cache.keys)
    }

    /** `parseAndFetchMovies(aiResponse, likedMovies)`: the checks after parsing. */
    method ParseAndFetchMovies(reply: AiReply, liked: seq<Movie>, lookups: seq<Option<Movie>>)
      returns (r: Result<seq<AiRecommendation>, string>)
      ensures r == ParseOutcome(reply, liked, lookups)
    {
      if reply.Unparseable? || reply.recommendations.None? {
        return Err(ParseFailure);
      }
      var recommendations := CollectRecommendations(reply.recommendations.value, LikedTitles(liked), lookups);
      r := Ok(recommendations);
    }

    /** The loop of `parseAndFetchMovies` over the entries of the reply. */
    method CollectRecommendations(recs: seq<AiRec>, likedTitles: seq<string>, lookups: seq<Option<Movie>>)
      returns (recommendations: seq<AiRecommendation>)
      ensures recommendations == Take(Candidates(recs, lookups, likedTitles), MaxRecommendations)
    {
      recommendations := [];
      var i := 0;
      while i < |recs|
        invariant 0 <= i <= |recs|
        invariant recommendations == Candidates(recs[..i], lookups, likedTitles)
        invariant |recommendations| < MaxRecommendations
      {
        CandidatesStep(recs, i, lookups, likedTitles);
        var added := Contribution(recs[i], LookupAt(lookups, i), likedTitles);
        if added != [] {
          recommendations := recommendations + added;
          if |recommendations| >= MaxRecommendations {
            CapReached(recs, i + 1, lookups, likedTitles);
            return;
          }
        }
        i := i + 1;
      }
      assert recs[..i] == recs;
    }

    /** `getFallbackRecommendations(likedMovies)` */
    method FallbackRecommendations(liked: seq<Movie>, similar: seq<SimilarResponse>)
      returns (recommendations: seq<AiRecommendation>)
      ensures recommendations == Fallback(liked, similar)
    {
      var sources := LastThree(liked);
      var init := FallbackStart(liked);
      recommendations := [];
      var seen := init.seen;
      var i := 0;
      while i < |sources|
        invariant 0 <= i <= |sources|
        invariant FallbackRun(init, sources, similar, i) == Progress(FallbackState(recommendations, seen), false)
      {
        var source := sources[i];
        var response := SimilarAt(similar, i);
        if response.SimilarThrew? {
          assert FallbackRun(init, sources, similar, i + 1).aborted;
          AbortedStays(init, sources, similar, i + 1, |sources|);
          return;
        }
        if response.SimilarOk? {
          var results := response.results;
          var before := FallbackState(recommendations, seen);
          var j := 0;
          while j < |results|
            invariant 0 <= j <= |results|
            invariant OfferAll(before, results[..j], source) == FallbackState(recommendations, seen)
          {
            assert results[..j + 1][..j] == results[..j];
            var movie := results[j];
            if movie.id !in seen && |recommendations| < MaxRecommendations {
              recommendations := recommendations + [AiRecommendation(movie, SimilarReason(source), DefaultConfidence, false)];
              seen := seen + {movie.id};
            }
            j := j + 1;
          }
          assert results[..j] == results;
        }
        i := i + 1;
      }
    }

    /** The body of the wrapped call in `generateRecommendations`. */
    method RequestAndStore(key: string, liked: seq<Movie>, now: int, gemini: Result<AiReply, string>,
                           lookups: seq<Option<Movie>>, similar: seq<SimilarResponse>)
      returns (result: AiResponse)
      requires Valid() && key != ""
      modifies this
      ensures Valid()
      ensures var g := RequestOutcome(old(cache), key, liked, now, gemini, lookups, similar);
              result == g.response && cache == g.cache
    {
      var attempt: Result<seq<AiRecommendation>, string>;
      if gemini.Err? {
        attempt := Err(gemini.error);
      } else {
        attempt := ParseAndFetchMovies(gemini.value, liked, lookups);
      }
      if attempt.Ok? {
        result := AiResponse(true, attempt.value, ExtractExplanation(gemini.value), None);
        SetCacheAt(key, result, now);
      } else {
        var fallback := FallbackRecommendations(liked, similar);
        result := AiResponse(false, fallback, FallbackExplanation,
                             Some(if attempt.error == "" then ServiceFailed else attempt.error));
      }
    }

    /** `generateRecommendations(likedMovies)`: too few likes or a live cache entry
        answer at once; otherwise the request's outcome goes through the loader's
        wrapper under the id `ai-recommendations-<count>`, which removes that id from
        the active operations whether or not it was active before. The reply is a
        parameter, so the model settles the request before handing its outcome to the
        wrapper; nothing in the request reads the loader. */
    method GenerateRecommendations(liked: seq<Movie>, now: int, gemini: Result<AiReply, string>,
                                   lookups: seq<Option<Movie>>, similar: seq<SimilarResponse>,
                                   loader: LoaderState)
      returns (response: AiResponse)
      requires Valid() && loader.Valid()
      modifies this, loader
      ensures Valid() && loader.Valid()
      ensures var g := GenerateOutcome(old(cache), liked, now, gemini, lookups, similar);
              response == g.response && cache == g.cache
      ensures GenerateOutcome(old(cache), liked, now, gemini, lookups, similar).askedService ==>
                loader.ops == old(loader.ops).Remove(RequestId(|liked|))
      ensures !GenerateOutcome(old(cache), liked, now, gemini, lookups, similar).askedService ==>
                loader.ops == old(loader.ops)
    {
      if |liked| < MinLikedMovies {
        return Insufficient();
      }
      var key := GenerateCacheKey(liked);
      assert key[0] == 'a';
      var cached := GetFromCacheAt(key, now);
      if cached.Some? {
        return cached.value;
      }
      response := RequestUnderLoader(key, liked, now, gemini, lookups, similar, loader);
    }

    /** The request of a cache miss, its outcome passed through the loader's wrapper. */
    method RequestUnderLoader(key: string, liked: seq<Movie>, now: int, gemini: Result<AiReply, string>,
                              lookups: seq<Option<Movie>>, similar: seq<SimilarResponse>,
                              loader: LoaderState)
      returns (response: AiResponse)
      requires Valid() && loader.Valid() && key != ""
      modifies this, loader
      ensures Valid() && loader.Valid()
      ensures var g := RequestOutcome(old(cache), key, liked, now, gemini, lookups, similar);
              response == g.response && cache == g.cache
      ensures loader.ops == old(loader.ops).Remove(RequestId(|liked|))
    {
      var result := RequestAndStore(key, liked, now, gemini, lookups, similar);
      var outcome, _ := loader.WrapApiCall(Returned(result), LoaderLabel, Some(RequestId(|liked|)), "", now);
      response := outcome.value;
    }
  }
}
