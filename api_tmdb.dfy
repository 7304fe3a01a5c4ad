/** The static movie API client (`TMDBAPI` in src/api/tmdb.ts), reduced to the parts
    that decide something without the network: the message an HTTP failure is
    reported with, the empty-query short cut of the search, the title lookup built
    on the search, the configuration check and the image URL builders. What a
    request resolves to is a parameter. */
module TmdbApi {

  import opened Common
  import opened Text
  import opened MovieTypes
  import opened HttpError

  const BadRequestText: string := "Bad request - please check your search parameters"
  const UnauthorizedText: string := "Unauthorized - invalid API key or token"
  const NotFoundText: string := "Not found - the requested resource does not exist"
  const RateLimitText: string := "Rate limit exceeded - please try again later"
  const ServerErrorText: string := "Server error - please try again later"
  const UnavailableText: string := "Service unavailable - please try again later"
  const NetworkText: string := "Network error - please check your internet connection"
  const TimeoutText: string := "Request timeout - please try again"
  const UnknownText: string := "An unknown error occurred"

  /** The fixed texts for the statuses the client knows. */
  function StatusText(status: int): (r: Option<string>)
    ensures r.Some? <==> status in {400, 401, 404, 429, 500, 503}
  {
    if status == 400 then Some(BadRequestText)
    else if status == 401 then Some(UnauthorizedText)
    else if status == 404 then Some(NotFoundText)
    else if status == 429 then Some(RateLimitText)
    else if status == 500 then Some(ServerErrorText)
    else if status == 503 then Some(UnavailableText)
    else None
  }

  /** Distinct known statuses are reported with distinct texts. */
  lemma StatusTextsDistinct(a: int, b: int)
    requires StatusText(a).Some? && StatusText(b).Some? && a != b
    ensures StatusText(a) != StatusText(b)
  {
  }

  /** `error.response?.data?.status_message` is truthy. */
  predicate HasStatusMessage(e: Thrown) {
    e.ErrorObject? && e.response.Some? && e.response.value.data.Some? &&
    Truthy(e.response.value.data.value.statusMessage)
  }

  /** `error.response?.status` is truthy. */
  predicate HasStatus(e: Thrown) {
    e.ErrorObject? && e.response.Some? && e.response.value.status != 0
  }

  /** The error code, when the thrown value has one. */
  function Code(e: Thrown): Option<string> {
    if e.ErrorObject? then e.code else None
  }

  /** `HTTP <status>: <statusText>` */
  function HttpStatusLine(status: int, statusText: string): string {
    "HTTP " + IntToString(status) + ": " + statusText
  }

  /** `getErrorMessage(error)`: the API's own message first, then the text for the
      status, then the network and timeout texts for their codes, then the error's
      message, then a generic text. */
  function GetErrorMessage(e: Thrown): (msg: string)
    ensures HasStatusMessage(e) ==> msg == e.response.value.data.value.statusMessage.value
    ensures !HasStatusMessage(e) && HasStatus(e) ==>
              var r := e.response.value;
              msg == (if StatusText(r.status).Some? then StatusText(r.status).value
                      else HttpStatusLine(r.status, r.statusText))
    ensures !HasStatusMessage(e) && !HasStatus(e) && Code(e) in {Some("ENOTFOUND"), Some("ENETUNREACH")} ==>
              msg == NetworkText
    ensures !HasStatusMessage(e) && !HasStatus(e) && Code(e) == Some("ECONNABORTED") ==> msg == TimeoutText
    ensures !HasStatusMessage(e) && !HasStatus(e) && Code(e) !in {Some("ENOTFOUND"), Some("ENETUNREACH"), Some("ECONNABORTED")} ==>
              msg == OrElse(if e.ErrorObject? then e.message else None, UnknownText)
    ensures msg != ""
  {
    if HasStatusMessage(e) then e.response.value.data.value.statusMessage.value
    else if HasStatus(e) then
      var r := e.response.value;
      var known := StatusText(r.status);
      if known.Some? then known.value else HttpStatusLine(r.status, r.statusText)
    else if Code(e) == Some("ENOTFOUND") || Code(e) == Some("ENETUNREACH") then NetworkText
    else if Code(e) == Some("ECONNABORTED") then TimeoutText
    else OrElse(if e.ErrorObject? then e.message else None, UnknownText)
  }

  /** The priority of the sources of the message: once the API's own message is
      there nothing else matters; once a status is there the error code and the
      error's message no longer matter. */
  lemma MessagePriority(e: Thrown, code: Option<string>, message: Option<string>)
    requires e.ErrorObject?
    ensures HasStatusMessage(e) ==>
              GetErrorMessage(ErrorObject(e.response, code, message)) == GetErrorMessage(e)
    ensures HasStatus(e) ==>
              GetErrorMessage(ErrorObject(e.response, code, message)) == GetErrorMessage(e)
    ensures !HasStatus(e) && !HasStatusMessage(e) && Code(e) in {Some("ENOTFOUND"), Some("ENETUNREACH"), Some("ECONNABORTED")} ==>
              GetErrorMessage(ErrorObject(e.response, e.code, message)) == GetErrorMessage(e)
  {
  }

  /** Two unknown statuses with the same status text are told apart by the message. */
  lemma UnknownStatusesDistinct(a: int, b: int, statusText: string)
    requires a != b
    ensures HttpStatusLine(a, statusText) != HttpStatusLine(b, statusText)
  {
    var sa := IntToString(a);
    var sb := IntToString(b);
    var rest := ": " + statusText;
    NoColonInNumber(a);
    NoColonInNumber(b);
    if HttpStatusLine(a, statusText) == HttpStatusLine(b, statusText) {
      assert HttpStatusLine(a, statusText) == "HTTP " + (sa + rest);
      assert HttpStatusLine(b, statusText) == "HTTP " + (sb + rest);
      assert sa + rest == HttpStatusLine(a, statusText)[5..];
      ColonFollowsNumber(sa, sb, rest);
      IntToStringInjective(a, b);
    }
  }

  /** A rendered number holds digits and possibly a leading minus sign, never a colon. */
  lemma NoColonInNumber(i: int)
    ensures forall k :: 0 <= k < |IntToString(i)| ==> IntToString(i)[k] != ':'
  {
    var s := IntToString(i);
    if i < 0 {
      forall k | 0 <= k < |s|
        ensures s[k] != ':'
      {
        if k > 0 {
          assert s[k] == s[1..][k - 1];
        }
      }
    }
  }

  /** Two colon-free texts followed by the same text starting with a colon are equal. */
  lemma ColonFollowsNumber(a: string, b: string, rest: string)
    requires |rest| > 0 && rest[0] == ':'
    requires forall i :: 0 <= i < |a| ==> a[i] != ':'
    requires forall i :: 0 <= i < |b| ==> b[i] != ':'
    requires a + rest == b + rest
    ensures a == b
  {
    var k := if |a| <= |b| then |a| else |b|;
    assert (a + rest)[k] == (b + rest)[k];
    assert |a| == |b|;
    assert a == (a + rest)[..|a|];
    assert b == (b + rest)[..|b|];
  }

  /** What the search endpoint resolves to, and whether a request was sent. */
  datatype SearchOutcome = SearchOutcome(response: ApiResponse<Page<Movie>>, requested: bool)

  /** `error.response?.status`, reported next to the message of a failure. */
  function StatusOf(e: Thrown): Option<int> {
    if HasStatus(e) then Some(e.response.value.status) else None
  }

  /** A response the HTTP client resolved to: its body and its HTTP status. */
  datatype Received<T> = Received(data: T, status: int)

  /** `searchMovies(query, page)`: a blank query answers with an empty first page
      without a request (and without a status); otherwise the page fetched with the
      response's status, or the failure's message and status. */
  function SearchMovies(query: string, page: int, fetch: Result<Received<Page<Movie>>, Thrown>): (r: SearchOutcome)
    ensures IsBlank(query) ==> !r.requested && r.response == ApiResponse(true, Some(EmptySearchPage()), None, None)
    ensures !IsBlank(query) ==> r.requested
    ensures !IsBlank(query) && fetch.Ok? ==>
              r.response.success && r.response.data == Some(fetch.value.data) &&
              r.response.error.None? && r.response.status == Some(fetch.value.status)
    ensures !IsBlank(query) && fetch.Err? ==>
              !r.response.success && r.response.data.None? &&
              r.response.error == Some(GetErrorMessage(fetch.error)) && r.response.status == StatusOf(fetch.error)
  {
    TrimEmptyIffBlank(query);
    if |Trim(query)| == 0 then SearchOutcome(ApiResponse(true, Some(EmptySearchPage()), None, None), false)
    else match fetch
      case Ok(got) => SearchOutcome(ApiResponse(true, Some(got.data), None, Some(got.status)), true)
      case Err(e) => SearchOutcome(ApiResponse(false, None, Some(GetErrorMessage(e)), StatusOf(e)), true)
  }

  /** `getMovieByTitle(title)` given what the first-page search resolved to: a failed
      search is answered as a successful lookup of nothing; otherwise the best match
      among the results. */
  function GetMovieByTitle(title: string, search: ApiResponse<Page<Movie>>): (r: ApiResponse<Option<Movie>>)
    ensures r.success && r.data.Some? && r.error.None?
    ensures !search.success || search.data.None? ==> r.data.value.None?
    ensures search.success && search.data.Some? ==> r.data.value == BestTitleMatch(search.data.value.results, title)
    ensures r.data.value.Some? ==> search.data.Some? && r.data.value.value in search.data.value.results
  {
    if !search.success || search.data.None? then ApiResponse(true, Some(None), None, None)
    else
      var results := search.data.value.results;
      var best := BestTitleMatch(results, title);
      assert best.Some? ==> best.value in results by {
        if best.Some? {
          var i := FirstExactMatch(results, title);
          if i.Some? {
            assert best.value == results[i.value];
          }
        }
      }
      ApiResponse(true, Some(best), None, None)
  }

  /** A blank title finds nothing, and no request is sent for it. */
  lemma BlankTitleFindsNothing(title: string, fetch: Result<Received<Page<Movie>>, Thrown>)
    requires IsBlank(title)
    ensures !SearchMovies(title, 1, fetch).requested
    ensures GetMovieByTitle(title, SearchMovies(title, 1, fetch).response).data == Some(None)
  {
  }

  /** A result whose title matches exactly, ignoring case, is chosen over every later
      result, however the search ordered them. */
  lemma ExactTitleChosen(title: string, results: seq<Movie>, i: nat)
    requires i < |results| && TitleMatches(results[i], title)
    requires forall j :: 0 <= j < i ==> !TitleMatches(results[j], title)
    ensures GetMovieByTitle(title, ApiResponse(true, Some(Page(1, results, 1, |results|)), None, None)).data
            == Some(Some(results[i]))
  {
  }

  datatype ConfigurationStatus = ConfigurationStatus(isValid: bool, errors: seq<string>, warnings: seq<string>)

  const MissingBaseUrl: string := "Missing TMDB_BASE_URL"
  const MissingCredentials: string := "Missing both TMDB_API_KEY and TMDB_ACCESS_TOKEN"
  const KeyInsteadOfToken: string := "Using API key instead of access token (less secure)"

  /** `getConfigurationStatus()` for the configured base URL, API key and token. */
  function GetConfigurationStatus(baseUrl: Option<string>, apiKey: Option<string>, accessToken: Option<string>)
    : (r: ConfigurationStatus)
    ensures r.isValid <==> r.errors == []
    ensures MissingBaseUrl in r.errors <==> !Truthy(baseUrl)
    ensures MissingCredentials in r.errors <==> !Truthy(apiKey) && !Truthy(accessToken)
    ensures forall m :: m in r.errors ==> m in {MissingBaseUrl, MissingCredentials}
    ensures r.warnings == (if Truthy(apiKey) && !Truthy(accessToken) then [KeyInsteadOfToken] else [])
  {
    var errors := (if !Truthy(baseUrl) then [MissingBaseUrl] else []) +
                  (if !Truthy(apiKey) && !Truthy(accessToken) then [MissingCredentials] else []);
    var warnings := if Truthy(apiKey) && !Truthy(accessToken) then [KeyInsteadOfToken] else [];
    ConfigurationStatus(|errors| == 0, errors, warnings)
  }

  /** The configuration is valid exactly when there is a base URL and at least one
      credential; a warning never makes it invalid. */
  lemma ConfigurationValidIff(baseUrl: Option<string>, apiKey: Option<string>, accessToken: Option<string>)
    ensures GetConfigurationStatus(baseUrl, apiKey, accessToken).isValid <==>
            Truthy(baseUrl) && (Truthy(apiKey) || Truthy(accessToken))
    ensures GetConfigurationStatus(baseUrl, apiKey, accessToken).warnings != [] ==>
            MissingCredentials !in GetConfigurationStatus(baseUrl, apiKey, accessToken).errors
  {
    var r := GetConfigurationStatus(baseUrl, apiKey, accessToken);
    if !r.isValid {
      assert r.errors[0] in r.errors;
    }
  }

  const ImageBase: string := "https://image.tmdb.org/t/p/"
  const NoImage: string := "https://via.placeholder.com/300x450/374151/9CA3AF?text=No+Image"
  const NoBackdrop: string := "https://via.placeholder.com/1280x720/374151/9CA3AF?text=No+Backdrop"

  /** The image URL for a present path. */
  function ImageUrl(size: string, path: string): (url: string)
    ensures StartsWith(url, ImageBase) && url[|ImageBase|..] == size + path
  {
    ImageBase + size + path
  }

  /** `getImageUrl(path, size = 'w500')` */
  function GetImageUrl(path: Option<string>, size: string := "w500"): (url: string)
    ensures !Truthy(path) ==> url == NoImage
    ensures Truthy(path) ==> url == ImageUrl(size, path.value)
  {
    if !Truthy(path) then NoImage else ImageUrl(size, path.value)
  }

  /** `getBackdropUrl(path, size = 'w1280')` */
  function GetBackdropUrl(path: Option<string>, size: string := "w1280"): (url: string)
    ensures !Truthy(path) ==> url == NoBackdrop
    ensures Truthy(path) ==> url == ImageUrl(size, path.value)
  {
    if !Truthy(path) then NoBackdrop else ImageUrl(size, path.value)
  }

  /** For one size, distinct paths give distinct URLs. */
  lemma ImageUrlsDistinct(size: string, p: string, q: string)
    ensures ImageUrl(size, p) == ImageUrl(size, q) ==> p == q
  {
    if ImageUrl(size, p) == ImageUrl(size, q) {
      assert ImageUrl(size, p)[|ImageBase| + |size|..] == p;
      assert ImageUrl(size, q)[|ImageBase| + |size|..] == q;
    }
  }
}
