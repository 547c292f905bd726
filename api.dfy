/** The movie catalogue client of lib/api.ts: a bounded retry loop around
    `fetch`, three endpoint wrappers that absorb every failure, and the two
    image URL builders.

    The network is a parameter: a call's successive `fetch` attempts see the
    successive elements of an outcome sequence, and each wait is recorded as a
    duration in milliseconds instead of being slept. */
module Api {
  import opened Optional

  const BaseUrl := "https://api.themoviedb.org/3"
  const ImageBaseUrl := "https://image.tmdb.org/t/p/original"
  /** The root that `getOptimizedImageUrl` puts before the size token. */
  const SizedImageRoot := "https://image.tmdb.org/t/p/"

  const DefaultRetries := 3
  const TooManyRequests := 429

  // ---------------------------------------------------------------------------
  // Data model: the shapes the TypeScript interfaces declare. The client
  // performs no mapping; bodies are handed on as the server sent them.

  datatype Genre = Genre(id: int, name: string)

  /** `Movie`. A path the server sends as `null` is modelled as "". */
  datatype Movie = Movie(
    id: int,
    title: string,
    originalTitle: string,
    overview: string,
    posterPath: string,
    backdropPath: string,
    releaseDate: string,
    voteAverage: real,
    voteCount: int,
    popularity: real,
    originalLanguage: string,
    genreIds: seq<int>)

  /** `MovieDetails extends Movie`: the inherited fields sit in `movie`. */
  datatype MovieDetails = MovieDetails(
    movie: Movie,
    genres: seq<Genre>,
    runtime: int,
    budget: int,
    revenue: int,
    status: string)

  /** Body of a listing response; `results` may be missing from it. */
  datatype ListBody = ListBody(results: Option<seq<Movie>>)

  // ---------------------------------------------------------------------------
  // fetchWithRetry

  /** What one `fetch` attempt produced: a response whose `ok` flag is set
      (with its decoded body), a response whose `ok` flag is clear (with its
      status, which is then outside 200..299), or a thrown network error. */
  datatype Outcome<B> = Ok(body: B) | Status(code: int) | NetErr

  /** The errors `fetchWithRetry` can throw. */
  datatype Failure =
    | MissingApiKey          // "TMDB_API_KEY is not set. Aborting request."
    | HttpError(status: int) // "HTTP error! status: ..."
    | NetworkError           // the error `fetch` itself threw, rethrown
    | MaxRetriesExceeded     // "Max retries exceeded"

  datatype FetchResult<B> = Success(body: B) | Thrown(error: Failure)

  /** A whole call as observed from outside: its result, the waits it
      performed in order, and how many times it called `fetch`. */
  datatype Run<B> = Run(result: FetchResult<B>, waits: seq<nat>, attempts: nat)

  /** `!TMDB_API_KEY` is false: the variable is set and not empty. */
  predicate HasApiKey(apiKey: Option<string>) {
    apiKey.Some? && apiKey.value != ""
  }

  predicate IsRateLimited<B>(o: Outcome<B>) {
    o.Status? && o.code == TooManyRequests
  }

  /** The wait after a failed attempt `i` (0-based) that is followed by another
      attempt: longer for a 429 than for any other failure. */
  function Backoff<B>(o: Outcome<B>, i: nat): (ms: nat)
    requires !o.Ok?
    ensures IsRateLimited(o) ==> ms == 1000 * (i + 1)
    ensures !IsRateLimited(o) ==> ms == 500 * (i + 1)
  {
    if IsRateLimited(o) then 1000 * (i + 1) else 500 * (i + 1)
  }

  /** One wait of `ms` followed by the rest of the run. */
  function AfterWait<B>(ms: nat, rest: Run<B>): Run<B> {
    Run(rest.result, [ms] + rest.waits, rest.attempts + 1)
  }

  /** The loop of `fetchWithRetry` from attempt `i` on, as a recursive function:
      the reference the imperative method is proved against. */
  function RetryFrom<B>(outcomes: seq<Outcome<B>>, retries: int, i: nat): (run: Run<B>)
    requires retries <= |outcomes|
    ensures run.result != Thrown(MissingApiKey)
    ensures i < retries ==> 1 <= run.attempts <= retries - i
    decreases retries - i
  {
    if i >= retries then Run(Thrown(MaxRetriesExceeded), [], 0)
    else
      var o := outcomes[i];
      if o.Ok? then Run(Success(o.body), [], 1)
      else if IsRateLimited(o) then AfterWait(Backoff(o, i), RetryFrom(outcomes, retries, i + 1))
      else
        var error := if o.Status? then HttpError(o.code) else NetworkError;
        if i == retries - 1 then Run(Thrown(error), [], 1)
        else AfterWait(Backoff(o, i), RetryFrom(outcomes, retries, i + 1))
  }

  /** A whole call of `fetchWithRetry`, key check included. */
  function FetchRun<B>(apiKey: Option<string>, outcomes: seq<Outcome<B>>, retries: int): (run: Run<B>)
    requires retries <= |outcomes|
    ensures run.result == Thrown(MissingApiKey) <==> !HasApiKey(apiKey)
    ensures !HasApiKey(apiKey) ==> run.attempts == 0
  {
    if !HasApiKey(apiKey) then Run(Thrown(MissingApiKey), [], 0)
    else RetryFrom(outcomes, retries, 0)
  }

  /** `waits` and `attempts` already spent, followed by the run `rest`. */
  function Prefixed<B>(waits: seq<nat>, attempts: nat, rest: Run<B>): Run<B> {
    Run(rest.result, waits + rest.waits, attempts + rest.attempts)
  }

  lemma PrefixedAfterWait<B>(waits: seq<nat>, attempts: nat, ms: nat, rest: Run<B>)
    ensures Prefixed(waits, attempts, AfterWait(ms, rest)) == Prefixed(waits + [ms], attempts + 1, rest)
  {
    assert waits + ([ms] + rest.waits) == (waits + [ms]) + rest.waits;
  }

  /** `fetchWithRetry(url, retries)`: `outcomes[i]` is what the `i`-th call of
      `fetch` yields. */
  method FetchWithRetry<B>(apiKey: Option<string>, outcomes: seq<Outcome<B>>, retries: int := DefaultRetries)
    returns (result: FetchResult<B>, waits: seq<nat>, attempts: nat)
    requires retries <= |outcomes|
    ensures Run(result, waits, attempts) == FetchRun(apiKey, outcomes, retries)
  {
    if !HasApiKey(apiKey) {
      return Thrown(MissingApiKey), [], 0;
    }
    ghost var whole := RetryFrom(outcomes, retries, 0);
    waits := [];
    var i: nat := 0;
    while i < retries
      invariant retries >= 0 ==> i <= retries
      invariant |waits| == i
      invariant whole == Prefixed(waits, i, RetryFrom(outcomes, retries, i))
      decreases retries - i
    {
      ghost var here := RetryFrom(outcomes, retries, i);
      var outcome := outcomes[i];
      var error: Failure;
      if outcome.Ok? {
        assert here == Run(Success(outcome.body), [], 1);
        return Success(outcome.body), waits, i + 1;
      } else if outcome.Status? && outcome.code == TooManyRequests {
        assert here == AfterWait(1000 * (i + 1), RetryFrom(outcomes, retries, i + 1));
        PrefixedAfterWait(waits, i, 1000 * (i + 1), RetryFrom(outcomes, retries, i + 1));
        waits := waits + [1000 * (i + 1)];
        i := i + 1;
        continue;
      } else if outcome.Status? {
        error := HttpError(outcome.code);
      } else {
        error := NetworkError;
      }
      // the catch block
      if i == retries - 1 {
        assert here == Run(Thrown(error), [], 1);
        return Thrown(error), waits, i + 1;
      }
      assert here == AfterWait(500 * (i + 1), RetryFrom(outcomes, retries, i + 1));
      PrefixedAfterWait(waits, i, 500 * (i + 1), RetryFrom(outcomes, retries, i + 1));
      waits := waits + [500 * (i + 1)];
      i := i + 1;
    }
    assert RetryFrom(outcomes, retries, i) == Run(Thrown(MaxRetriesExceeded), [], 0);
    return Thrown(MaxRetriesExceeded), waits, i;
  }

  // ---------------------------------------------------------------------------
  // Properties of the retry loop

  /** Without a key the call throws before any attempt; with one it makes at
      most `retries` attempts, none at all when `retries <= 0`. */
  lemma {:induction false} AttemptBound<B>(apiKey: Option<string>, outcomes: seq<Outcome<B>>, retries: int)
    requires retries <= |outcomes|
    ensures var run := FetchRun(apiKey, outcomes, retries);
      && (!HasApiKey(apiKey) ==> run == Run(Thrown(MissingApiKey), [], 0))
      && (HasApiKey(apiKey) && retries <= 0 ==> run == Run(Thrown(MaxRetriesExceeded), [], 0))
      && (HasApiKey(apiKey) && retries > 0 ==> 1 <= run.attempts <= retries)
  {
  }

  /** The waits `waits`, recorded from attempt `i` on, each follow a failed
      attempt and have that attempt's backoff. */
  ghost predicate WaitsAreBackoffs<B>(outcomes: seq<Outcome<B>>, i: nat, waits: seq<nat>) {
    && i + |waits| <= |outcomes|
    && forall j :: i <= j < i + |waits| ==>
         !outcomes[j].Ok? && waits[j - i] == Backoff(outcomes[j], j)
  }

  lemma WaitsAreBackoffsCons<B>(outcomes: seq<Outcome<B>>, i: nat, waits: seq<nat>)
    requires i < |outcomes| && !outcomes[i].Ok? && WaitsAreBackoffs(outcomes, i + 1, waits)
    ensures WaitsAreBackoffs(outcomes, i, [Backoff(outcomes[i], i)] + waits)
  {
    var all := [Backoff(outcomes[i], i)] + waits;
    forall j | i <= j < i + |all|
      ensures !outcomes[j].Ok? && all[j - i] == Backoff(outcomes[j], j)
    {
      if j > i {
        assert all[j - i] == waits[j - (i + 1)];
      }
    }
  }

  /** Every recorded wait follows a failed attempt and has that attempt's
      backoff; one wait is recorded per attempt except after the last one,
      which records a wait only when it was a 429. */
  lemma {:induction false} RetryFromWaits<B>(outcomes: seq<Outcome<B>>, retries: int, i: nat)
    requires retries <= |outcomes| && i <= |outcomes|
    ensures var run := RetryFrom(outcomes, retries, i);
      && WaitsAreBackoffs(outcomes, i, run.waits)
      && (run.result == Thrown(MaxRetriesExceeded) ==> |run.waits| == run.attempts)
      && (run.result != Thrown(MaxRetriesExceeded) ==> |run.waits| + 1 == run.attempts)
    decreases retries - i
  {
    if i < retries {
      var o := outcomes[i];
      if !o.Ok? && (IsRateLimited(o) || i != retries - 1) {
        RetryFromWaits(outcomes, retries, i + 1);
        var rest := RetryFrom(outcomes, retries, i + 1);
        assert RetryFrom(outcomes, retries, i).waits == [Backoff(o, i)] + rest.waits;
        WaitsAreBackoffsCons(outcomes, i, rest.waits);
      }
    }
  }

  /** Attempt `k` is the first whose response is ok. */
  predicate FirstOk<B>(outcomes: seq<Outcome<B>>, k: nat) {
    k < |outcomes| && outcomes[k].Ok? && forall j :: 0 <= j < k ==> !outcomes[j].Ok?
  }

  /** The first attempt whose response is ok ends the call with that body:
      exactly `k + 1` attempts and `k` waits, one per earlier failure. */
  lemma {:induction false} FirstOkWins<B>(apiKey: Option<string>, outcomes: seq<Outcome<B>>, retries: int, k: nat)
    requires retries <= |outcomes|
    requires HasApiKey(apiKey) && k < retries && outcomes[k].Ok?
    requires forall j :: 0 <= j < k ==> !outcomes[j].Ok?
    ensures var run := FetchRun(apiKey, outcomes, retries);
      run.result == Success(outcomes[k].body) && run.attempts == k + 1 && |run.waits| == k
  {
    FirstOkWinsFrom(outcomes, retries, 0, k);
  }

  lemma {:induction false} FirstOkWinsFrom<B>(outcomes: seq<Outcome<B>>, retries: int, i: nat, k: nat)
    requires retries <= |outcomes| && i <= k < retries && outcomes[k].Ok?
    requires forall j :: i <= j < k ==> !outcomes[j].Ok?
    ensures var run := RetryFrom(outcomes, retries, i);
      run.result == Success(outcomes[k].body) && run.attempts == k + 1 - i && |run.waits| == k - i
    decreases k - i
  {
    if i < k {
      FirstOkWinsFrom(outcomes, retries, i + 1, k);
    }
  }

  /** The call succeeds exactly when the key is set and one of the first
      `retries` attempts gets an ok response. */
  lemma SucceedsIff<B>(apiKey: Option<string>, outcomes: seq<Outcome<B>>, retries: int)
    requires retries <= |outcomes|
    ensures FetchRun(apiKey, outcomes, retries).result.Success?
        <==> HasApiKey(apiKey) && exists k :: 0 <= k < retries && outcomes[k].Ok?
  {
    if HasApiKey(apiKey) {
      if k :| 0 <= k < retries && outcomes[k].Ok? {
        var first := FirstOkIndex(outcomes, k);
        FirstOkWins(apiKey, outcomes, retries, first);
      } else {
        NoOkFails(outcomes, retries, 0);
      }
    }
  }

  /** The least index at or below `k` whose outcome is ok, given that `k`'s is. */
  lemma {:induction false} FirstOkIndex<B>(outcomes: seq<Outcome<B>>, k: nat) returns (first: nat)
    requires k < |outcomes| && outcomes[k].Ok?
    ensures first <= k && outcomes[first].Ok?
    ensures forall j :: 0 <= j < first ==> !outcomes[j].Ok?
  {
    if j :| 0 <= j < k && outcomes[j].Ok? {
      first := FirstOkIndex(outcomes, j);
    } else {
      first := k;
    }
  }

  /** With no ok response among the attempts the call throws: the last
      attempt's own error when it failed hard, "Max retries exceeded" when it
      was rate limited (or when there were no attempts). */
  lemma {:induction false} NoOkFails<B>(outcomes: seq<Outcome<B>>, retries: int, i: nat)
    requires retries <= |outcomes|
    requires forall j :: i <= j < retries ==> !outcomes[j].Ok?
    ensures var run := RetryFrom(outcomes, retries, i);
      && run.result.Thrown?
      && (i < retries ==> run.attempts == retries - i)
      && ((i < retries && outcomes[retries - 1].Status? && !IsRateLimited(outcomes[retries - 1]))
            ==> run.result.error == HttpError(outcomes[retries - 1].code))
      && (i < retries && outcomes[retries - 1].NetErr? ==> run.result.error == NetworkError)
      && (i >= retries || IsRateLimited(outcomes[retries - 1]) ==> run.result.error == MaxRetriesExceeded)
    decreases retries - i
  {
    if i < retries - 1 {
      NoOkFails(outcomes, retries, i + 1);
    }
  }

  /** A 429 on the last attempt still records its wait, and the call then ends
      with "Max retries exceeded", not with the 429. A hard failure on the last
      attempt is rethrown without a wait. */
  lemma LastAttemptEndings<B>(apiKey: Option<string>, outcomes: seq<Outcome<B>>, retries: int)
    requires retries <= |outcomes| && retries > 0 && HasApiKey(apiKey)
    requires forall j :: 0 <= j < retries ==> !outcomes[j].Ok?
    ensures var run := FetchRun(apiKey, outcomes, retries);
      && run.attempts == retries
      && (IsRateLimited(outcomes[retries - 1]) ==>
            run.result == Thrown(MaxRetriesExceeded) && |run.waits| == retries
            && run.waits[retries - 1] == 1000 * retries)
      && (!IsRateLimited(outcomes[retries - 1]) ==>
            run.result.Thrown? && run.result.error != MaxRetriesExceeded && |run.waits| == retries - 1)
  {
    NoOkFails(outcomes, retries, 0);
    RetryFromWaits(outcomes, retries, 0);
  }

  /** With the default budget of three attempts the recorded waits never
      decrease: 500 or 1000 after the first attempt, 1000 or 2000 after the
      second, and 3000 after the third, which happens only on a 429. */
  lemma DefaultBackoffNonDecreasing<B>(apiKey: Option<string>, outcomes: seq<Outcome<B>>)
    requires DefaultRetries <= |outcomes|
    ensures var w := FetchRun(apiKey, outcomes, DefaultRetries).waits;
      && |w| <= 3
      && (|w| > 0 ==> w[0] == 500 || w[0] == 1000)
      && (|w| > 1 ==> w[1] == 1000 || w[1] == 2000)
      && (|w| > 2 ==> w[2] == 3000 && IsRateLimited(outcomes[2]))
      && forall j, k :: 0 <= j <= k < |w| ==> w[j] <= w[k]
  {
    if HasApiKey(apiKey) {
      AttemptBound(apiKey, outcomes, DefaultRetries);
      RetryFromWaits(outcomes, DefaultRetries, 0);
    }
  }

  /** Two 429s and then an ok response: the call succeeds on its third and
      last attempt after waiting 1000 and then 2000. */
  lemma RateLimitedTwiceThenOk<B>(apiKey: Option<string>, body: B)
    requires HasApiKey(apiKey)
    ensures var run := FetchRun(apiKey, [Status(429), Status(429), Ok(body)], DefaultRetries);
      run.result == Success(body) && run.attempts == 3 && run.waits == [1000, 2000]
  {
    var outcomes := [Status(429), Status(429), Ok(body)];
    assert RetryFrom(outcomes, 3, 2) == Run(Success(body), [], 1);
    assert RetryFrom(outcomes, 3, 1) == Run(Success(body), [2000], 2);
  }

  /** With a budget of four attempts the waits can go down: a failure, a 429
      and another failure wait 500, 2000 and then 1500. */
  lemma LargerBudgetBackoffCanDecrease()
    ensures var outcomes: seq<Outcome<int>> := [Status(500), Status(429), NetErr, Ok(0)];
      var run := FetchRun(Some("key"), outcomes, 4);
      run.waits == [500, 2000, 1500] && run.waits[1] > run.waits[2] && run.result == Success(0)
  {
    var outcomes: seq<Outcome<int>> := [Status(500), Status(429), NetErr, Ok(0)];
    assert RetryFrom(outcomes, 4, 3) == Run(Success(0), [], 1);
    assert RetryFrom(outcomes, 4, 2).waits == [1500];
    assert RetryFrom(outcomes, 4, 1).waits == [2000, 1500];
  }

  // ---------------------------------------------------------------------------
  // The endpoint wrappers: every failure becomes `[]` or `null`.

  const NowPlayingUrl := BaseUrl + "/movie/now_playing"
  const PopularUrl := BaseUrl + "/movie/popular?language=en-US&page=1"

  function DetailsUrl(id: string): string {
    BaseUrl + "/movie/" + id
  }

  /** The try/catch of a listing fetcher: `result.results || []`, and `[]` when
      `fetchWithRetry` threw. */
  function ListingOrEmpty(r: FetchResult<ListBody>): (movies: seq<Movie>)
    ensures r.Thrown? ==> movies == []
    ensures r.Success? ==> movies == r.body.results.GetOr([])
    ensures movies != [] ==> r.Success? && r.body.results == Some(movies)
  {
    if r.Success? then r.body.results.GetOr([]) else []
  }

  /** The try/catch of `fetchMovieDetails`: the body itself, or `null`. */
  function DetailsOrNull(r: FetchResult<MovieDetails>): (details: Option<MovieDetails>)
    ensures details.Some? <==> r.Success?
    ensures details.Some? ==> details.value == r.body
  {
    if r.Success? then Some(r.body) else None
  }

  /** `fetchNowPlayingMovies()`: `responses(url)` is what successive fetches of
      `url` yield. */
  function FetchNowPlayingMovies(apiKey: Option<string>, responses: string -> seq<Outcome<ListBody>>)
    : (movies: seq<Movie>)
    requires DefaultRetries <= |responses(NowPlayingUrl)|
    ensures var outcomes := responses(NowPlayingUrl);
      && (!HasApiKey(apiKey) || (forall j :: 0 <= j < DefaultRetries ==> !outcomes[j].Ok?) ==> movies == [])
      && (movies != [] ==> exists k :: 0 <= k < DefaultRetries && outcomes[k] == Ok(ListBody(Some(movies))))
      && forall k: nat :: k < DefaultRetries && FirstOk(outcomes, k)
           ==> movies == (if HasApiKey(apiKey) then outcomes[k].body.results.GetOr([]) else [])
  {
    ListingResult(apiKey, responses(NowPlayingUrl));
    ListingIsServerResults(apiKey, responses(NowPlayingUrl));
    ListingOrEmpty(FetchRun(apiKey, responses(NowPlayingUrl), DefaultRetries).result)
  }

  /** `fetchPopularMovies()`. */
  function FetchPopularMovies(apiKey: Option<string>, responses: string -> seq<Outcome<ListBody>>)
    : (movies: seq<Movie>)
    requires DefaultRetries <= |responses(PopularUrl)|
    ensures var outcomes := responses(PopularUrl);
      && (!HasApiKey(apiKey) || (forall j :: 0 <= j < DefaultRetries ==> !outcomes[j].Ok?) ==> movies == [])
      && (movies != [] ==> exists k :: 0 <= k < DefaultRetries && outcomes[k] == Ok(ListBody(Some(movies))))
      && forall k: nat :: k < DefaultRetries && FirstOk(outcomes, k)
           ==> movies == (if HasApiKey(apiKey) then outcomes[k].body.results.GetOr([]) else [])
  {
    ListingResult(apiKey, responses(PopularUrl));
    ListingIsServerResults(apiKey, responses(PopularUrl));
    ListingOrEmpty(FetchRun(apiKey, responses(PopularUrl), DefaultRetries).result)
  }

  /** `fetchMovieDetails(id)`: the body of the first ok response, unchanged,
      or `null`. */
  function FetchMovieDetails(apiKey: Option<string>, id: string, responses: string -> seq<Outcome<MovieDetails>>)
    : (details: Option<MovieDetails>)
    requires DefaultRetries <= |responses(DetailsUrl(id))|
    ensures var outcomes := responses(DetailsUrl(id));
      && (details.Some? <==> HasApiKey(apiKey) && exists k :: 0 <= k < DefaultRetries && outcomes[k].Ok?)
      && (details.Some? ==> exists k :: 0 <= k < DefaultRetries && outcomes[k] == Ok(details.value))
      && forall k: nat :: k < DefaultRetries && FirstOk(outcomes, k)
           ==> details == (if HasApiKey(apiKey) then Some(outcomes[k].body) else None)
  {
    DetailsResult(apiKey, responses(DetailsUrl(id)));
    DetailsOrNull(FetchRun(apiKey, responses(DetailsUrl(id)), DefaultRetries).result)
  }

  /** What a listing fetcher returns for the outcomes of its URL: the
      `results` of the first ok response among three attempts (`[]` when that
      body has none), and `[]` when the key is missing or no attempt succeeds. */
  lemma ListingResult(apiKey: Option<string>, outcomes: seq<Outcome<ListBody>>)
    requires DefaultRetries <= |outcomes|
    ensures var movies := ListingOrEmpty(FetchRun(apiKey, outcomes, DefaultRetries).result);
      && (!HasApiKey(apiKey) || (forall j :: 0 <= j < DefaultRetries ==> !outcomes[j].Ok?) ==> movies == [])
      && forall k: nat :: k < DefaultRetries && FirstOk(outcomes, k)
           ==> movies == (if HasApiKey(apiKey) then outcomes[k].body.results.GetOr([]) else [])
  {
    if HasApiKey(apiKey) {
      SucceedsIff(apiKey, outcomes, DefaultRetries);
      forall k: nat | k < DefaultRetries && FirstOk(outcomes, k)
        ensures ListingOrEmpty(FetchRun(apiKey, outcomes, DefaultRetries).result) == outcomes[k].body.results.GetOr([])
      {
        FirstOkWins(apiKey, outcomes, DefaultRetries, k);
      }
    }
  }

  /** A non-empty listing is exactly the `results` array of some ok response
      among the first three: the wrappers pass it on unchanged. */
  lemma ListingIsServerResults(apiKey: Option<string>, outcomes: seq<Outcome<ListBody>>)
    requires DefaultRetries <= |outcomes|
    ensures var movies := ListingOrEmpty(FetchRun(apiKey, outcomes, DefaultRetries).result);
      movies != [] ==> exists k :: 0 <= k < DefaultRetries && outcomes[k] == Ok(ListBody(Some(movies)))
  {
    var run := FetchRun(apiKey, outcomes, DefaultRetries);
    if run.result.Success? {
      AttemptBound(apiKey, outcomes, DefaultRetries);
      ResultComesFromLastAttempt(outcomes, DefaultRetries, 0);
      var k := run.attempts - 1;
      assert outcomes[k] == Ok(run.result.body);
    }
  }

  /** A successful run's body is the one the last attempt received. */
  lemma {:induction false} ResultComesFromLastAttempt<B>(outcomes: seq<Outcome<B>>, retries: int, i: nat)
    requires retries <= |outcomes|
    ensures var run := RetryFrom(outcomes, retries, i);
      run.result.Success? ==> run.attempts >= 1 && i + run.attempts - 1 < |outcomes|
                              && outcomes[i + run.attempts - 1] == Ok(run.result.body)
    decreases retries - i
  {
    if i < retries && !outcomes[i].Ok? {
      ResultComesFromLastAttempt(outcomes, retries, i + 1);
    }
  }

  /** `fetchMovieDetails` yields a movie exactly when the key is set and one of
      three attempts is ok, and that movie is the body of an ok response as
      the server sent it. */
  lemma DetailsResult(apiKey: Option<string>, outcomes: seq<Outcome<MovieDetails>>)
    requires DefaultRetries <= |outcomes|
    ensures var details := DetailsOrNull(FetchRun(apiKey, outcomes, DefaultRetries).result);
      && (details.Some? <==> HasApiKey(apiKey) && exists k :: 0 <= k < DefaultRetries && outcomes[k].Ok?)
      && (details.Some? ==> exists k :: 0 <= k < DefaultRetries && outcomes[k] == Ok(details.value))
      && forall k: nat :: k < DefaultRetries && FirstOk(outcomes, k)
           ==> details == (if HasApiKey(apiKey) then Some(outcomes[k].body) else None)
  {
    SucceedsIff(apiKey, outcomes, DefaultRetries);
    var run := FetchRun(apiKey, outcomes, DefaultRetries);
    if run.result.Success? {
      AttemptBound(apiKey, outcomes, DefaultRetries);
      ResultComesFromLastAttempt(outcomes, DefaultRetries, 0);
      assert outcomes[run.attempts - 1] == Ok(run.result.body);
    }
    forall k: nat | k < DefaultRetries && FirstOk(outcomes, k) && HasApiKey(apiKey)
      ensures DetailsOrNull(FetchRun(apiKey, outcomes, DefaultRetries).result) == Some(outcomes[k].body)
    {
      FirstOkWins(apiKey, outcomes, DefaultRetries, k);
    }
  }

  /** A details request answered 404 three times makes three attempts, waits
      500 and 1000, and yields `null` instead of throwing. */
  lemma DetailsNotFound(apiKey: Option<string>, outcomes: seq<Outcome<MovieDetails>>)
    requires HasApiKey(apiKey)
    requires |outcomes| == 3 && forall j :: 0 <= j < 3 ==> outcomes[j] == Status(404)
    ensures var run := FetchRun(apiKey, outcomes, DefaultRetries);
      && run.attempts == 3 && run.waits == [500, 1000]
      && run.result == Thrown(HttpError(404)) && DetailsOrNull(run.result) == None
  {
    assert RetryFrom(outcomes, 3, 2) == Run(Thrown(HttpError(404)), [], 1);
    assert RetryFrom(outcomes, 3, 1) == Run(Thrown(HttpError(404)), [1000], 2);
  }

  // ---------------------------------------------------------------------------
  // Image URLs

  /** The sizes `getOptimizedImageUrl` accepts. */
  datatype ImageSize = W300 | W500 | W780 | Original

  function SizeToken(size: ImageSize): string {
    match size
    case W300 => "w300"
    case W500 => "w500"
    case W780 => "w780"
    case Original => "original"
  }

  /** `getImageUrl(path)`: "" for an empty path, else the full-size URL. */
  function GetImageUrl(path: string): (url: string)
    ensures path == "" <==> url == ""
    ensures path != "" ==>
      |url| == |ImageBaseUrl| + |path| && url[..|ImageBaseUrl|] == ImageBaseUrl && url[|ImageBaseUrl|..] == path
  {
    if path == "" then "" else ImageBaseUrl + path
  }

  /** `getOptimizedImageUrl(path, size = "w500")`. */
  function GetOptimizedImageUrl(path: string, size: ImageSize := W500): (url: string)
    ensures path == "" <==> url == ""
    ensures path != "" ==>
      |url| == |SizedImageRoot| + |SizeToken(size)| + |path| && url[..|SizedImageRoot|] == SizedImageRoot
      && url[|url| - |path|..] == path
  {
    if path == "" then "" else SizedImageRoot + SizeToken(size) + path
  }

  /** The full-size URL is the optimized URL at size "original". */
  lemma ImageUrlIsOriginalSize(path: string)
    ensures GetImageUrl(path) == GetOptimizedImageUrl(path, Original)
  {
    if path != "" {
      assert ImageBaseUrl == SizedImageRoot + SizeToken(Original);
    }
  }

  /** Reads an optimized image URL back into its size and path. */
  function ParseImageUrl(url: string): Option<(ImageSize, string)> {
    if StartsWith(url, SizedImageRoot) then ParseSized(url[|SizedImageRoot|..]) else None
  }

  /** Splits "<size token><path>" into the size and the path. */
  function ParseSized(rest: string): Option<(ImageSize, string)> {
    if StartsWith(rest, "w300") then Some((W300, rest[4..]))
    else if StartsWith(rest, "w500") then Some((W500, rest[4..]))
    else if StartsWith(rest, "w780") then Some((W780, rest[4..]))
    else if StartsWith(rest, "original") then Some((Original, rest[8..]))
    else None
  }

  predicate StartsWith(s: string, prefix: string) {
    |prefix| <= |s| && s[..|prefix|] == prefix
  }

  lemma SplitAfterPrefix(prefix: string, rest: string)
    ensures StartsWith(prefix + rest, prefix) && (prefix + rest)[|prefix|..] == rest
  {
    assert (prefix + rest)[..|prefix|] == prefix;
  }

  lemma ParseSizedRoundTrip(size: ImageSize, path: string)
    ensures ParseSized(SizeToken(size) + path) == Some((size, path))
  {
    var token := SizeToken(size);
    var rest := token + path;
    SplitAfterPrefix(token, path);
    assert rest[0] == token[0] && rest[1] == token[1];
  }

  /** Size and path can be read back from every non-empty image URL, so
      different paths or sizes never give the same URL. */
  lemma ImageUrlRoundTrip(path: string, size: ImageSize)
    requires path != ""
    ensures ParseImageUrl(GetOptimizedImageUrl(path, size)) == Some((size, path))
  {
    assert GetOptimizedImageUrl(path, size) == SizedImageRoot + (SizeToken(size) + path);
    SplitAfterPrefix(SizedImageRoot, SizeToken(size) + path);
    ParseSizedRoundTrip(size, path);
  }
}
