/** The user store (src/stores/user.ts): the list of liked movies, kept free of
    repeated ids, the display preferences, the counts derived from the list and
    the statistics over the liked movies (genre and release-year tallies ranked
    by count). Saving to and loading from browser storage is not modelled. */
module UserStore {

  import opened Common
  import opened Text
  import opened OrderedMap
  import opened MovieTypes

  const RecommendationThreshold: nat := 3
  const TopEntries: nat := 3

  // ---------------------------------------------------------------------------
  // Preferences

  datatype Preferences = Preferences(darkMode: bool, autoPlay: bool, showAdultContent: bool, preferredLanguage: string)

  function DefaultPreferences(): (p: Preferences)
    ensures p.darkMode && !p.autoPlay && !p.showAdultContent && p.preferredLanguage == "en"
  {
    Preferences(true, false, false, "en")
  }

  /** `Partial<Preferences>`: a field that is not supplied is `None`. */
  datatype PreferencesPatch = PreferencesPatch(
    darkMode: Option<bool>,
    autoPlay: Option<bool>,
    showAdultContent: Option<bool>,
    preferredLanguage: Option<string>)

  /** `{ ...preferences, ...patch }` */
  function Merge(p: Preferences, patch: PreferencesPatch): Preferences {
    Preferences(
      patch.darkMode.GetOr(p.darkMode),
      patch.autoPlay.GetOr(p.autoPlay),
      patch.showAdultContent.GetOr(p.showAdultContent),
      patch.preferredLanguage.GetOr(p.preferredLanguage))
  }

  /** Merging overrides exactly the supplied fields: an empty patch changes nothing,
      and applying the same patch twice is the same as applying it once. */
  lemma MergeSpec(p: Preferences, patch: PreferencesPatch)
    ensures var r := Merge(p, patch);
            (patch.darkMode.Some? ==> r.darkMode == patch.darkMode.value) &&
            (patch.darkMode.None? ==> r.darkMode == p.darkMode) &&
            (patch.autoPlay.Some? ==> r.autoPlay == patch.autoPlay.value) &&
            (patch.autoPlay.None? ==> r.autoPlay == p.autoPlay) &&
            (patch.showAdultContent.Some? ==> r.showAdultContent == patch.showAdultContent.value) &&
            (patch.showAdultContent.None? ==> r.showAdultContent == p.showAdultContent) &&
            (patch.preferredLanguage.Some? ==> r.preferredLanguage == patch.preferredLanguage.value) &&
            (patch.preferredLanguage.None? ==> r.preferredLanguage == p.preferredLanguage) &&
            Merge(r, patch) == r &&
            Merge(p, PreferencesPatch(None, None, None, None)) == p
  {
  }

  // ---------------------------------------------------------------------------
  // The liked list

  /** No two liked movies share an id. */
  predicate DistinctIds(s: seq<Movie>) {
    forall i, j :: 0 <= i < j < |s| ==> s[i].id != s[j].id
  }

  /** `findIndex(m => m.id === id)` */
  function FindIndex(s: seq<Movie>, id: int): (r: int)
    ensures -1 <= r < |s|
    ensures r >= 0 ==> s[r].id == id && forall j :: 0 <= j < r ==> s[j].id != id
    ensures r == -1 ==> forall j :: 0 <= j < |s| ==> s[j].id != id
  {
    if |s| == 0 then -1
    else if s[0].id == id then 0
    else
      var r := FindIndex(s[1..], id);
      if r == -1 then -1 else r + 1
  }

  /** `likedMovieIds.includes(id)` */
  predicate IsLiked(s: seq<Movie>, id: int) {
    exists i :: 0 <= i < |s| && s[i].id == id
  }

  /** The list after `likeMovie(m)`. */
  function Liked(s: seq<Movie>, m: Movie): seq<Movie> {
    if FindIndex(s, m.id) >= 0 then s else s + [m]
  }

  /** The list after `unlikeMovie(id)`: the first movie with that id spliced out. */
  function Unliked(s: seq<Movie>, id: int): seq<Movie> {
    var i := FindIndex(s, id);
    if i >= 0 then s[..i] + s[i + 1..] else s
  }

  /** The movies of `s` whose id differs from `id`, in order. */
  function WithoutId(s: seq<Movie>, id: int): (r: seq<Movie>)
    ensures |r| <= |s|
  {
    if |s| == 0 then []
    else (if s[0].id == id then [] else [s[0]]) + WithoutId(s[1..], id)
  }

  lemma {:induction false} WithoutAbsentId(s: seq<Movie>, id: int)
    requires forall j :: 0 <= j < |s| ==> s[j].id != id
    ensures WithoutId(s, id) == s
  {
    if |s| > 0 {
      WithoutAbsentId(s[1..], id);
    }
  }

  /** With ids kept distinct, splicing out the first match removes every movie with
      that id and keeps the others in order. */
  lemma {:induction false} UnlikedIsWithoutId(s: seq<Movie>, id: int)
    requires DistinctIds(s)
    ensures Unliked(s, id) == WithoutId(s, id)
  {
    var i := FindIndex(s, id);
    if i == -1 {
      WithoutAbsentId(s, id);
    } else if i == 0 {
      WithoutAbsentId(s[1..], id);
      assert s[..0] + s[1..] == s[1..];
    } else {
      UnlikedIsWithoutId(s[1..], id);
      assert FindIndex(s[1..], id) == i - 1;
      assert s[..i] + s[i + 1..] == [s[0]] + (s[1..][..i - 1] + s[1..][i..]);
    }
  }

  lemma IsLikedIff(s: seq<Movie>, id: int)
    ensures IsLiked(s, id) <==> FindIndex(s, id) >= 0
  {
  }

  /** Filtering out an id keeps exactly the other ids. */
  lemma {:induction false} WithoutIdMembers(s: seq<Movie>, id: int)
    ensures forall k :: IsLiked(WithoutId(s, id), k) <==> IsLiked(s, k) && k != id
  {
    if |s| > 0 {
      WithoutIdMembers(s[1..], id);
      var rest := WithoutId(s[1..], id);
      var w := WithoutId(s, id);
      var head := if s[0].id == id then [] else [s[0]];
      assert w == head + rest;
      forall k
        ensures IsLiked(w, k) <==> IsLiked(s, k) && k != id
      {
        if IsLiked(w, k) {
          var i :| 0 <= i < |w| && w[i].id == k;
          if i >= |head| {
            assert rest[i - |head|].id == k;
            assert IsLiked(rest, k);
            assert IsLiked(s[1..], k);
            var j :| 0 <= j < |s[1..]| && s[1..][j].id == k;
            assert s[j + 1].id == k;
          }
        }
        if IsLiked(s, k) && k != id {
          var i :| 0 <= i < |s| && s[i].id == k;
          if i == 0 {
            assert w[0].id == k;
          } else {
            assert s[1..][i - 1].id == k;
            assert IsLiked(s[1..], k);
            assert IsLiked(rest, k);
            var j :| 0 <= j < |rest| && rest[j].id == k;
            assert w[|head| + j].id == k;
          }
        }
      }
    }
  }

  /** Filtering a list with distinct ids keeps the ids distinct. */
  lemma {:induction false} WithoutIdDistinct(s: seq<Movie>, id: int)
    requires DistinctIds(s)
    ensures DistinctIds(WithoutId(s, id))
  {
    if |s| > 0 {
      WithoutIdDistinct(s[1..], id);
      var rest := WithoutId(s[1..], id);
      var w := WithoutId(s, id);
      if s[0].id != id {
        assert w == [s[0]] + rest;
        WithoutIdMembers(s[1..], id);
        assert !IsLiked(s[1..], s[0].id);
        assert !IsLiked(rest, s[0].id);
        forall i, j | 0 <= i < j < |w|
          ensures w[i].id != w[j].id
        {
          if i == 0 {
            assert w[j] == rest[j - 1];
          } else {
            assert w[i] == rest[i - 1] && w[j] == rest[j - 1];
          }
        }
      } else {
        assert w == rest;
      }
    }
  }

  /** Liking adds the movie at the end exactly when its id is not liked yet; ids stay distinct. */
  lemma LikedSpec(s: seq<Movie>, m: Movie)
    requires DistinctIds(s)
    ensures var r := Liked(s, m);
            DistinctIds(r) && IsLiked(r, m.id) &&
            (IsLiked(s, m.id) ==> r == s) &&
            (!IsLiked(s, m.id) ==> r == s + [m] && |r| == |s| + 1)
  {
    IsLikedIff(s, m.id);
    assert (s + [m])[|s|].id == m.id;
  }

  /** Unliking removes the movie with that id and nothing else; ids stay distinct. */
  lemma UnlikedSpec(s: seq<Movie>, id: int)
    requires DistinctIds(s)
    ensures var r := Unliked(s, id);
            DistinctIds(r) && !IsLiked(r, id) &&
            (forall k :: k != id ==> (IsLiked(r, k) <==> IsLiked(s, k))) &&
            (!IsLiked(s, id) ==> r == s) &&
            (IsLiked(s, id) ==> |r| == |s| - 1)
  {
    UnlikedIsWithoutId(s, id);
    WithoutIdMembers(s, id);
    WithoutIdDistinct(s, id);
  }

  /** Toggling a movie that is not liked, then toggling it again, restores the list. */
  lemma ToggleTwiceRestores(s: seq<Movie>, m: Movie)
    requires DistinctIds(s) && !IsLiked(s, m.id)
    ensures Unliked(Liked(s, m), m.id) == s
  {
    var t := s + [m];
    assert t[|s|].id == m.id;
    assert FindIndex(t, m.id) == |s|;
    assert t[..|s|] + t[|s| + 1..] == s;
  }

  // ---------------------------------------------------------------------------
  // Statistics

  /** `release_date.split('-')[0]` */
  function YearOf(m: Movie): string {
    BeforeFirst(m.releaseDate, '-')
  }

  /** Every genre id of the movies, in order (the nested `forEach`). */
  function GenreIdsOf(movies: seq<Movie>): seq<int> {
    if |movies| == 0 then [] else GenreIdsOf(movies[..|movies| - 1]) + movies[|movies| - 1].genreIds
  }

  function YearsOf(movies: seq<Movie>): (ys: seq<string>)
    ensures |ys| == |movies|
    ensures forall i :: 0 <= i < |movies| ==> ys[i] == YearOf(movies[i])
  {
    seq(|movies|, i requires 0 <= i < |movies| => YearOf(movies[i]))
  }

  /** `counts.set(k, (counts.get(k) || 0) + 1)` */
  function Bump<K>(counts: OMap<K, nat>, k: K): (r: OMap<K, nat>)
    requires counts.Valid()
    ensures r.Valid()
  {
    counts.Put(k, (if k in counts.values then counts.values[k] else 0) + 1)
  }

  /** The counts after bumping every element of `xs` in turn. */
  function Tally<K>(counts: OMap<K, nat>, xs: seq<K>): (r: OMap<K, nat>)
    requires counts.Valid()
    ensures r.Valid()
  {
    if |xs| == 0 then counts else Bump(Tally(counts, xs[..|xs| - 1]), xs[|xs| - 1])
  }

  lemma {:induction false} TallyAppend<K>(counts: OMap<K, nat>, xs: seq<K>, ys: seq<K>)
    requires counts.Valid()
    ensures Tally(counts, xs + ys) == Tally(Tally(counts, xs), ys)
    decreases |ys|
  {
    if |ys| == 0 {
      assert xs + ys == xs;
    } else {
      TallyAppend(counts, xs, ys[..|ys| - 1]);
      assert (xs + ys)[..|xs + ys| - 1] == xs + ys[..|ys| - 1];
    }
  }

  lemma TallyStep<K>(xs: seq<K>, x: K)
    ensures Tally(Empty(), xs + [x]) == Bump(Tally(Empty(), xs), x)
  {
    assert (xs + [x])[..|xs|] == xs;
  }

  lemma GenreIdsOfStep(movies: seq<Movie>, i: nat)
    requires i < |movies|
    ensures GenreIdsOf(movies[..i + 1]) == GenreIdsOf(movies[..i]) + movies[i].genreIds
  {
    assert movies[..i + 1][..i] == movies[..i];
  }

  /** One more liked movie adds its genre ids and its year to the tallies. */
  lemma StatsStep(movies: seq<Movie>, i: nat)
    requires i < |movies|
    ensures Tally(Empty(), GenreIdsOf(movies[..i + 1]))
            == Tally(Tally(Empty(), GenreIdsOf(movies[..i])), movies[i].genreIds)
    ensures Tally(Empty(), YearsOf(movies[..i + 1]))
            == Bump(Tally(Empty(), YearsOf(movies[..i])), YearOf(movies[i]))
  {
    GenreIdsOfStep(movies, i);
    TallyAppend(Empty(), GenreIdsOf(movies[..i]), movies[i].genreIds);
    assert YearsOf(movies[..i + 1]) == YearsOf(movies[..i]) + [YearOf(movies[i])];
    TallyStep(YearsOf(movies[..i]), YearOf(movies[i]));
  }

  /** Tallying from nothing counts each element by its number of occurrences, and
      lists exactly the elements that occur. */
  lemma {:induction false} TallyCounts<K>(xs: seq<K>)
    ensures var t := Tally(Empty(), xs);
            forall k :: (k in t.values <==> k in xs) && (k in xs ==> t.values[k] == multiset(xs)[k])
  {
    if |xs| > 0 {
      var init := xs[..|xs| - 1];
      TallyCounts(init);
      assert xs == init + [xs[|xs| - 1]];
      assert multiset(xs) == multiset(init) + multiset{xs[|xs| - 1]};
    }
  }

  /** `Array.from(counts.entries())` */
  function Entries<K>(counts: OMap<K, nat>): (r: seq<(K, nat)>)
    requires counts.Valid()
    ensures |r| == |counts.keys|
    ensures forall i :: 0 <= i < |r| ==> r[i] == (counts.keys[i], counts.values[counts.keys[i]])
  {
    seq(|counts.keys|, i requires 0 <= i < |counts.keys| && counts.Valid() => (counts.keys[i], counts.values[counts.keys[i]]))
  }

  predicate SortedByCountDesc<K>(s: seq<(K, nat)>) {
    forall i, j :: 0 <= i < j < |s| ==> s[i].1 >= s[j].1
  }

  function InsertByCount<K>(x: (K, nat), s: seq<(K, nat)>): (r: seq<(K, nat)>)
    requires SortedByCountDesc(s)
    ensures SortedByCountDesc(r)
    ensures multiset(r) == multiset(s) + multiset{x}
    ensures |r| == |s| + 1
    ensures r[0] == x || (|s| > 0 && r[0] == s[0])
  {
    if |s| == 0 then [x]
    else if x.1 > s[0].1 then
      ConsSorted(x, s);
      [x] + s
    else
      var tail := InsertByCount(x, s[1..]);
      ConsSorted(s[0], tail);
      assert s == [s[0]] + s[1..];
      [s[0]] + tail
  }

  /** An entry whose count is at least the head's can go in front of a sorted list. */
  lemma ConsSorted<K>(h: (K, nat), t: seq<(K, nat)>)
    requires SortedByCountDesc(t) && (|t| > 0 ==> h.1 >= t[0].1)
    ensures SortedByCountDesc([h] + t)
  {
    var r := [h] + t;
    forall i, j | 0 <= i < j < |r|
      ensures r[i].1 >= r[j].1
    {
      if i == 0 {
        assert r[j] == t[j - 1];
      } else {
        assert r[i] == t[i - 1] && r[j] == t[j - 1];
      }
    }
  }

  /** `.sort((a, b) => b[1] - a[1])`: entries by non-increasing count; an entry is
      placed after the earlier entries with the same count. */
  function SortByCountDesc<K>(s: seq<(K, nat)>): (r: seq<(K, nat)>)
    ensures SortedByCountDesc(r)
    ensures multiset(r) == multiset(s)
    ensures |r| == |s|
  {
    if |s| == 0 then []
    else
      assert s == s[..|s| - 1] + [s[|s| - 1]];
      InsertByCount(s[|s| - 1], SortByCountDesc(s[..|s| - 1]))
  }

  /** The three highest counts with their keys. */
  function TopByCount<K>(counts: OMap<K, nat>): seq<(K, nat)>
    requires counts.Valid()
  {
    Take(SortByCountDesc(Entries(counts)), TopEntries)
  }

  /** At most three entries, ordered by non-increasing count, each an entry of the tally. */
  lemma TopByCountEntries<K>(counts: OMap<K, nat>)
    requires counts.Valid()
    ensures var top := TopByCount(counts);
            |top| <= TopEntries && SortedByCountDesc(top) &&
            forall i :: 0 <= i < |top| ==> top[i].0 in counts.values && top[i].1 == counts.values[top[i].0]
  {
    var entries := Entries(counts);
    var sorted := SortByCountDesc(entries);
    var top := TopByCount(counts);
    forall i | 0 <= i < |top|
      ensures top[i].0 in counts.values && top[i].1 == counts.values[top[i].0]
    {
      assert top[i] == sorted[i];
      assert sorted[i] in multiset(entries);
    }
  }

  /** Exactly three entries, or every entry when the tally has fewer keys, and no key
      twice. */
  lemma TopByCountSize<K>(counts: OMap<K, nat>)
    requires counts.Valid()
    ensures |TopByCount(counts)| == if |counts.keys| < TopEntries then |counts.keys| else TopEntries
    ensures DistinctKeys(TopByCount(counts))
  {
    var sorted := SortByCountDesc(Entries(counts));
    var top := TopByCount(counts);
    assert top == Take(sorted, TopEntries);
    SortedKeysDistinct(counts);
    forall i, j | 0 <= i < j < |top|
      ensures top[i].0 != top[j].0
    {
      assert top[i] == sorted[i] && top[j] == sorted[j];
    }
  }

  /** No key is listed twice. */
  predicate DistinctKeys<K(==)>(s: seq<(K, nat)>) {
    forall i, j :: 0 <= i < j < |s| ==> s[i].0 != s[j].0
  }

  /** Sorting the entries of a tally lists each key once. */
  lemma SortedKeysDistinct<K>(counts: OMap<K, nat>)
    requires counts.Valid()
    ensures DistinctKeys(SortByCountDesc(Entries(counts)))
  {
    var entries := Entries(counts);
    var sorted := SortByCountDesc(entries);
    forall i, j | 0 <= i < j < |sorted|
      ensures sorted[i].0 != sorted[j].0
    {
      if sorted[i].0 == sorted[j].0 {
        assert sorted[i] in multiset(entries) && sorted[j] in multiset(entries);
        assert sorted[i] == sorted[j];
        TwiceCounted(sorted, i, j);
        EntriesOnce(counts, sorted[i]);
        assert false;
      }
    }
  }

  /** A value found at two positions of a list occurs at least twice in its multiset. */
  lemma TwiceCounted<T>(s: seq<T>, i: nat, j: nat)
    requires i < j < |s| && s[i] == s[j]
    ensures multiset(s)[s[i]] >= 2
  {
    assert s == s[..j] + [s[j]] + s[j + 1..];
    assert s[..j][i] == s[i];
    assert s[i] in multiset(s[..j]);
  }

  /** Each entry of a tally occurs once in the list of its entries. */
  lemma EntriesOnce<K>(counts: OMap<K, nat>, e: (K, nat))
    requires counts.Valid()
    ensures multiset(Entries(counts))[e] <= 1
  {
    var entries := Entries(counts);
    forall i, j | 0 <= i < j < |entries|
      ensures entries[i] != entries[j]
    {
      assert counts.keys[i] != counts.keys[j];
    }
    DistinctOnce(entries, e);
  }

  lemma {:induction false} DistinctOnce<T>(s: seq<T>, x: T)
    requires forall i, j :: 0 <= i < j < |s| ==> s[i] != s[j]
    ensures multiset(s)[x] <= 1
  {
    if |s| > 0 {
      assert s == [s[0]] + s[1..];
      DistinctOnce(s[1..], x);
      if s[0] == x {
        assert x !in s[1..];
      }
    }
  }

  /** No key left out of the top entries has a higher count than one kept. */
  lemma TopByCountDominates<K>(counts: OMap<K, nat>, k: K)
    requires counts.Valid() && k in counts.values
    ensures var top := TopByCount(counts);
            (exists i :: 0 <= i < |top| && top[i].0 == k) ||
            (forall i :: 0 <= i < |top| ==> top[i].1 >= counts.values[k])
  {
    var entries := Entries(counts);
    var sorted := SortByCountDesc(entries);
    var top := TopByCount(counts);
    var p :| 0 <= p < |counts.keys| && counts.keys[p] == k;
    assert entries[p] in multiset(sorted);
    var q :| 0 <= q < |sorted| && sorted[q] == entries[p];
    if q < |top| {
      assert top[q].0 == k;
    } else {
      forall i | 0 <= i < |top|
        ensures top[i].1 >= counts.values[k]
      {
        assert top[i] == sorted[i];
      }
    }
  }

  /** `getMovieStats` without the float average rating. */
  datatype MovieStats = MovieStats(totalMovies: nat, favoriteGenres: seq<(int, nat)>, favoriteYears: seq<(string, nat)>)

  // ---------------------------------------------------------------------------
  // The store

  class UserStoreState {
    var likedMovies: seq<Movie>
    var preferences: Preferences

    ghost predicate Valid()
      reads this
    {
      DistinctIds(likedMovies)
    }

    constructor ()
      ensures Valid() && likedMovies == [] && preferences == DefaultPreferences()
    {
      likedMovies := [];
      preferences := DefaultPreferences();
    }

    /** `likedMovieIds` */
    function LikedMovieIds(): (ids: seq<int>)
      reads this
      ensures |ids| == |likedMovies|
      ensures forall i :: 0 <= i < |ids| ==> ids[i] == likedMovies[i].id
    {
      Ids(likedMovies)
    }

    /** `likedMoviesCount` */
    function LikedMoviesCount(): nat
      reads this
    {
      |likedMovies|
    }

    /** `hasLikedMovies` */
    function HasLikedMovies(): (b: bool)
      reads this
      ensures b <==> LikedMoviesCount() > 0
    {
      |likedMovies| > 0
    }

    /** `canGetRecommendations` */
    function CanGetRecommendations(): (b: bool)
      reads this
      ensures b <==> LikedMoviesCount() >= RecommendationThreshold
    {
      |likedMovies| >= RecommendationThreshold
    }

    /** `isMovieLiked(movieId)` */
    function IsMovieLiked(movieId: int): (b: bool)
      reads this
      ensures b <==> movieId in LikedMovieIds()
    {
      assert IsLiked(likedMovies, movieId) ==> movieId in LikedMovieIds();
      IsLiked(likedMovies, movieId)
    }

    /** `likeMovie(movie)` */
    method LikeMovie(movie: Movie)
      requires Valid()
      modifies this
      ensures Valid()
      ensures likedMovies == Liked(old(likedMovies), movie) && preferences == old(preferences)
    {
      LikedSpec(likedMovies, movie);
      var exists_ := FindIndex(likedMovies, movie.id);
      if exists_ < 0 {
        likedMovies := likedMovies + [movie];
      }
    }

    /** `unlikeMovie(movieId)` */
    method UnlikeMovie(movieId: int)
      requires Valid()
      modifies this
      ensures Valid()
      ensures likedMovies == Unliked(old(likedMovies), movieId) && preferences == old(preferences)
    {
      UnlikedSpec(likedMovies, movieId);
      var index := FindIndex(likedMovies, movieId);
      if index > -1 {
        likedMovies := likedMovies[..index] + likedMovies[index + 1..];
      }
    }

    /** `toggleLike(movie)`: flips whether the movie's id is liked. */
    method ToggleLike(movie: Movie)
      requires Valid()
      modifies this
      ensures Valid()
      ensures IsLiked(likedMovies, movie.id) <==> !IsLiked(old(likedMovies), movie.id)
      ensures IsLiked(old(likedMovies), movie.id) ==> likedMovies == Unliked(old(likedMovies), movie.id)
      ensures !IsLiked(old(likedMovies), movie.id) ==> likedMovies == old(likedMovies) + [movie]
      ensures preferences == old(preferences)
    {
      LikedSpec(likedMovies, movie);
      UnlikedSpec(likedMovies, movie.id);
      if IsLiked(likedMovies, movie.id) {
        UnlikeMovie(movie.id);
      } else {
        LikeMovie(movie);
      }
    }

    /** `clearLikedMovies()` */
    method ClearLikedMovies()
      modifies this
      ensures Valid() && likedMovies == [] && preferences == old(preferences)
    {
      likedMovies := [];
    }

    /** `updatePreferences(newPreferences)` */
    method UpdatePreferences(patch: PreferencesPatch)
      modifies this
      ensures preferences == Merge(old(preferences), patch) && likedMovies == old(likedMovies)
    {
      preferences := Merge(preferences, patch);
    }

    /** `toggleDarkMode()`: only `darkMode` changes. */
    method ToggleDarkMode()
      modifies this
      ensures preferences == old(preferences).(darkMode := !old(preferences).darkMode)
      ensures likedMovies == old(likedMovies)
    {
      preferences := preferences.(darkMode := !preferences.darkMode);
    }

    /** The inner `forEach` over one movie's genre ids. */
    static method CountAll<K>(counts: OMap<K, nat>, xs: seq<K>) returns (r: OMap<K, nat>)
      requires counts.Valid()
      ensures r == Tally(counts, xs)
    {
      r := counts;
      var j := 0;
      while j < |xs|
        invariant 0 <= j <= |xs|
        invariant r.Valid() && r == Tally(counts, xs[..j])
      {
        assert xs[..j + 1][..j] == xs[..j];
        r := Bump(r, xs[j]);
        j := j + 1;
      }
      assert xs[..j] == xs;
    }

    /** `getMovieStats`: nothing when no movie is liked; otherwise the count of liked
        movies and the three most frequent genres and release years. */
    method GetMovieStats() returns (stats: Option<MovieStats>)
      ensures likedMovies == [] <==> stats.None?
      ensures stats.Some? ==>
                stats.value == MovieStats(|likedMovies|,
                                          TopByCount(Tally(Empty(), GenreIdsOf(likedMovies))),
                                          TopByCount(Tally(Empty(), YearsOf(likedMovies))))
    {
      if |likedMovies| == 0 {
        return None;
      }
      var movies := likedMovies;
      var genres: OMap<int, nat> := Empty();
      var years: OMap<string, nat> := Empty();
      var i := 0;
      while i < |movies|
        invariant 0 <= i <= |movies|
        invariant genres.Valid() && years.Valid()
        invariant genres == Tally(Empty(), GenreIdsOf(movies[..i]))
        invariant years == Tally(Empty(), YearsOf(movies[..i]))
      {
        StatsStep(movies, i);
        genres := CountAll(genres, movies[i].genreIds);
        years := Bump(years, YearOf(movies[i]));
        i := i + 1;
      }
      assert movies[..i] == movies;
      stats := Some(MovieStats(|likedMovies|, TopByCount(genres), TopByCount(years)));
    }
  }
}
