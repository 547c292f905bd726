/** The logic of the movie details page (components/movie-details.tsx): its
    text helpers, the rating colour bands, the image sources, which sidebar
    rows it shows, and the component state that loading and the like and
    bookmark buttons update. */
module MovieDetailsPage {
  import opened Optional
  import Api
  import Text

  // ---------------------------------------------------------------------------
  // formatRuntime

  const NotAvailable := "N/A"

  /** `formatRuntime(minutes)`: "N/A" for 0, otherwise `${hours}h ${mins}m`
      with `Math.floor(minutes / 60)` hours and `minutes % 60` (JavaScript's
      truncating remainder) minutes. */
  function FormatRuntime(minutes: int): (text: string)
    ensures minutes == 0 <==> text == NotAvailable
    ensures minutes > 0 ==> exists h: nat, m: nat ::
      m < 60 && h * 60 + m == minutes && text == Text.NatToDecimal(h) + "h " + Text.NatToDecimal(m) + "m"
  {
    if minutes == 0 then NotAvailable
    else
      var hours := minutes / 60;  // Dafny's division by a positive divisor is floor division
      var mins := Text.JsRemainder(minutes, 60);
      var text := Text.IntToDecimal(hours) + "h " + Text.IntToDecimal(mins) + "m";
      assert text[|text| - 1] == 'm';
      assert minutes > 0 ==> hours >= 0 && mins == minutes % 60 && hours * 60 + mins == minutes;
      text
  }

  /** The hours and minutes can be read back from the text: two different
      positive runtimes never print the same. */
  lemma RuntimeTextDeterminesRuntime(a: int, b: int)
    requires a > 0 && b > 0 && FormatRuntime(a) == FormatRuntime(b)
    ensures a == b
  {
    var ha: nat, ma: nat :| ma < 60 && ha * 60 + ma == a
      && FormatRuntime(a) == Text.NatToDecimal(ha) + "h " + Text.NatToDecimal(ma) + "m";
    var hb: nat, mb: nat :| mb < 60 && hb * 60 + mb == b
      && FormatRuntime(b) == Text.NatToDecimal(hb) + "h " + Text.NatToDecimal(mb) + "m";
    HoursMinutesTextInjective(ha, ma, hb, mb);
  }

  /** `"{h}h {m}m"` determines `h` and `m`: digits never contain 'h'. */
  lemma HoursMinutesTextInjective(ha: nat, ma: nat, hb: nat, mb: nat)
    requires Text.NatToDecimal(ha) + "h " + Text.NatToDecimal(ma) + "m"
          == Text.NatToDecimal(hb) + "h " + Text.NatToDecimal(mb) + "m"
    ensures ha == hb && ma == mb
  {
    var da, db := Text.NatToDecimal(ha), Text.NatToDecimal(hb);
    var ta, tb := Text.NatToDecimal(ma), Text.NatToDecimal(mb);
    Regroup(da, "h ", ta, "m");
    Regroup(db, "h ", tb, "m");
    DigitsBeforeMarker(da, "h " + (ta + "m"), db, "h " + (tb + "m"));
    DropPrefix("h ", ta + "m", tb + "m");
    DigitsBeforeMarker(ta, "m", tb, "m");
    Text.DecimalRoundTrip(ha);
    Text.DecimalRoundTrip(hb);
    Text.DecimalRoundTrip(ma);
    Text.DecimalRoundTrip(mb);
  }

  lemma Regroup(a: string, b: string, c: string, d: string)
    ensures a + b + c + d == a + (b + (c + d))
  {
  }

  lemma DropPrefix(p: string, x: string, y: string)
    requires p + x == p + y
    ensures x == y
  {
    assert x == (p + x)[|p|..];
  }

  lemma ConcatIndex(s: string, t: string, k: nat)
    requires k < |s|
    ensures (s + t)[k] == s[k]
  {
  }

  /** Two digit strings each followed by a text starting with a non-digit
      split the same way only when they are equal. */
  lemma DigitsBeforeMarker(a: string, x: string, b: string, y: string)
    requires Text.AllDigits(a) && Text.AllDigits(b)
    requires |x| > 0 && |y| > 0 && !Text.IsDigit(x[0]) && !Text.IsDigit(y[0])
    requires a + x == b + y
    ensures a == b && x == y
  {
    if |a| < |b| {
      ConcatIndex(b, y, |a|);
      assert false;
    } else if |b| < |a| {
      ConcatIndex(a, x, |b|);
      assert false;
    }
    assert a == (a + x)[..|a|] && b == (b + y)[..|b|];
  }

  // ---------------------------------------------------------------------------
  // formatCurrency

  /** What `formatCurrency(amount)` displays: the literal "Not disclosed" for
      0, otherwise the en-US whole-dollar currency format of `amount`. */
  datatype CurrencyText = NotDisclosed | IntlUsd(amount: int)

  function FormatCurrency(amount: int): (text: CurrencyText)
    ensures text == NotDisclosed <==> amount == 0
    ensures text.IntlUsd? ==> text.amount == amount
  {
    if amount == 0 then NotDisclosed else IntlUsd(amount)
  }

  /** The sidebar's budget row: shown only for a positive budget. */
  predicate BudgetRowShown(d: Api.MovieDetails) {
    d.budget > 0
  }

  /** The sidebar's revenue row: shown only for a positive revenue. */
  predicate RevenueRowShown(d: Api.MovieDetails) {
    d.revenue > 0
  }

  /** One amount row of the sidebar: its heading and what it displays. */
  datatype AmountRow = AmountRow(heading: string, value: CurrencyText)

  /** The budget and revenue rows the sidebar renders, in page order. */
  function SidebarAmountRows(d: Api.MovieDetails): (rows: seq<AmountRow>)
    ensures |rows| == (if d.budget > 0 then 1 else 0) + (if d.revenue > 0 then 1 else 0)
    ensures d.budget > 0 ==> rows[0] == AmountRow("Budget", IntlUsd(d.budget))
    ensures d.revenue > 0 ==> rows[|rows| - 1] == AmountRow("Revenue", IntlUsd(d.revenue))
    ensures forall r :: r in rows ==> r.value.IntlUsd? && r.value.amount > 0
  {
    (if BudgetRowShown(d) then [AmountRow("Budget", FormatCurrency(d.budget))] else [])
    + (if RevenueRowShown(d) then [AmountRow("Revenue", FormatCurrency(d.revenue))] else [])
  }

  /** A sidebar row that is shown displays a formatted amount, never
      "Not disclosed"; a zero amount hides its row. */
  lemma SidebarRowsShowDisclosedAmounts(d: Api.MovieDetails)
    ensures BudgetRowShown(d) ==> FormatCurrency(d.budget) == IntlUsd(d.budget)
    ensures RevenueRowShown(d) ==> FormatCurrency(d.revenue) == IntlUsd(d.revenue)
    ensures FormatCurrency(d.budget) == NotDisclosed ==> !BudgetRowShown(d)
    ensures FormatCurrency(d.revenue) == NotDisclosed ==> !RevenueRowShown(d)
  {
  }

  // ---------------------------------------------------------------------------
  // getRatingColor

  const Green := "text-green-400"
  const Yellow := "text-yellow-400"
  const Red := "text-red-400"

  /** `getRatingColor(rating)`: three bands split at 8 and 6. */
  function GetRatingColor(rating: real): (color: string)
    ensures color == Green <==> rating >= 8.0
    ensures color == Yellow <==> 6.0 <= rating < 8.0
    ensures color == Red <==> rating < 6.0
  {
    if rating >= 8.0 then Green
    else if rating >= 6.0 then Yellow
    else Red
  }

  /** How good a band is: red 0, yellow 1, green 2. */
  function BandRank(color: string): nat {
    if color == Green then 2 else if color == Yellow then 1 else 0
  }

  /** A higher rating never gets a worse band. */
  lemma RatingColorMonotone(a: real, b: real)
    requires a <= b
    ensures BandRank(GetRatingColor(a)) <= BandRank(GetRatingColor(b))
  {
  }

  // ---------------------------------------------------------------------------
  // Image sources

  const Placeholder := "/placeholder.svg"

  /** The hero background: the backdrop at full size, the poster when there is
      no backdrop, the placeholder when there is neither. */
  function BackdropSource(m: Api.Movie): (src: string)
    ensures src != ""
    ensures m.backdropPath != "" ==> src == Api.GetOptimizedImageUrl(m.backdropPath, Api.Original)
    ensures m.backdropPath == "" && m.posterPath != "" ==> src == Api.GetOptimizedImageUrl(m.posterPath, Api.Original)
    ensures src == Placeholder <==> m.backdropPath == "" && m.posterPath == ""
  {
    var path := if m.backdropPath != "" then m.backdropPath else m.posterPath;
    var url := Api.GetOptimizedImageUrl(path, Api.Original);
    if url != "" then url else Placeholder
  }

  /** The poster beside the title: the w500 poster, else the placeholder. */
  function PosterSource(m: Api.Movie): (src: string)
    ensures src != ""
    ensures m.posterPath != "" ==> src == Api.GetOptimizedImageUrl(m.posterPath, Api.W500)
    ensures src == Placeholder <==> m.posterPath == ""
  {
    var url := Api.GetOptimizedImageUrl(m.posterPath, Api.W500);
    if url != "" then url else Placeholder
  }

  /** What fills the hero background: the backdrop image, or a plain
      gradient once that image has failed to load. */
  datatype HeroArea = HeroImage(src: string) | GradientPanel

  function HeroAreaOf(m: Api.Movie, imageError: bool): (area: HeroArea)
    ensures area == GradientPanel <==> imageError
    ensures area.HeroImage? ==> area.src == BackdropSource(m) && area.src != ""
  {
    if imageError then GradientPanel else HeroImage(BackdropSource(m))
  }

  // ---------------------------------------------------------------------------
  // Component state

  /** The component's `useState` values. */
  datatype PageState = PageState(
    movie: Option<Api.MovieDetails>,
    loading: bool,
    isLiked: bool,
    isBookmarked: bool,
    imageError: bool)

  /** The state of a freshly mounted page. */
  const Initial := PageState(None, true, false, false, false)

  /** What the page renders. */
  datatype Screen = Spinner | NotFound | Showing(details: Api.MovieDetails)

  function ScreenOf(s: PageState): (screen: Screen)
    ensures screen == Spinner <==> s.loading
    ensures screen == NotFound <==> !s.loading && s.movie.None?
    ensures screen.Showing? <==> !s.loading && s.movie.Some?
    ensures screen.Showing? ==> s.movie == Some(screen.details)
  {
    if s.loading then Spinner
    else if s.movie.None? then NotFound
    else Showing(s.movie.value)
  }

  /** What can happen to the page. */
  datatype PageEvent =
    | Like                             // handleLike
    | Bookmark                         // handleBookmark
    | BackdropFailed                   // the hero image's onError
    | LoadStarted                      // setLoading(true)
    | Loaded(data: Option<Api.MovieDetails>) // setMovie(data), then setLoading(false)

  /** The state after one event. */
  function Step(s: PageState, e: PageEvent): PageState {
    match e
    case Like => s.(isLiked := !s.isLiked)
    case Bookmark => s.(isBookmarked := !s.isBookmarked)
    case BackdropFailed => s.(imageError := true)
    case LoadStarted => s.(loading := true)
    case Loaded(data) => s.(movie := data, loading := false)
  }

  /** The state after the events of `events`, in order. */
  function Replay(s: PageState, events: seq<PageEvent>): PageState
    decreases |events|
  {
    if events == [] then s else Replay(Step(s, events[0]), events[1..])
  }

  /** Number of `e` events in `events`. */
  function Count(events: seq<PageEvent>, e: PageEvent): nat {
    if events == [] then 0 else (if events[0] == e then 1 else 0) + Count(events[1..], e)
  }

  /** Liking flips `isLiked` and leaves the rest; liking twice changes nothing.
      The same holds for bookmarking and `isBookmarked`. */
  lemma TogglesAreInvolutions(s: PageState)
    ensures Step(Step(s, Like), Like) == s
    ensures Step(Step(s, Bookmark), Bookmark) == s
    ensures Step(s, Like).isLiked != s.isLiked && Step(s, Like).(isLiked := s.isLiked) == s
    ensures Step(s, Bookmark).isBookmarked != s.isBookmarked
         && Step(s, Bookmark).(isBookmarked := s.isBookmarked) == s
  {
  }

  /** After any sequence of events, the page is liked exactly when it started
      liked and saw an even number of likes, or the reverse; likewise for the
      bookmark. */
  lemma {:induction false} TogglesFollowParity(s: PageState, events: seq<PageEvent>)
    ensures Replay(s, events).isLiked == (s.isLiked != (Count(events, Like) % 2 == 1))
    ensures Replay(s, events).isBookmarked == (s.isBookmarked != (Count(events, Bookmark) % 2 == 1))
    decreases |events|
  {
    if events != [] {
      TogglesFollowParity(Step(s, events[0]), events[1..]);
    }
  }

  /** Once the backdrop has failed the gradient replaces it for good. */
  lemma {:induction false} BackdropErrorSticks(s: PageState, events: seq<PageEvent>)
    requires s.imageError
    ensures Replay(s, events).imageError
    ensures forall m: Api.Movie :: HeroAreaOf(m, Replay(s, events).imageError) == GradientPanel
    decreases |events|
  {
    if events != [] {
      BackdropErrorSticks(Step(s, events[0]), events[1..]);
    }
  }

  /** A completed load leaves the page not loading with the fetched movie
      (or none), keeps the like, bookmark and image flags, and renders
      "Movie not found" exactly when the fetch gave `null`. */
  lemma LoadSettles(s: PageState, data: Option<Api.MovieDetails>)
    ensures var t := Step(Step(s, LoadStarted), Loaded(data));
      && !t.loading && t.movie == data
      && t.isLiked == s.isLiked && t.isBookmarked == s.isBookmarked && t.imageError == s.imageError
      && (ScreenOf(t) == NotFound <==> data.None?)
      && (data.Some? ==> ScreenOf(t) == Showing(data.value))
  {
  }

  /** The component instance. */
  class MovieDetailsView {
    const movieId: string
    var movie: Option<Api.MovieDetails>
    var loading: bool
    var isLiked: bool
    var isBookmarked: bool
    var imageError: bool

    function State(): PageState
      reads this
    {
      PageState(movie, loading, isLiked, isBookmarked, imageError)
    }

    constructor (movieId: string)
      ensures this.movieId == movieId && State() == Initial
    {
      this.movieId := movieId;
      movie := None;
      loading := true;
      isLiked := false;
      isBookmarked := false;
      imageError := false;
    }

    method HandleLike()
      modifies this
      ensures State() == Step(old(State()), Like)
    {
      isLiked := !isLiked;
    }

    method HandleBookmark()
      modifies this
      ensures State() == Step(old(State()), Bookmark)
    {
      isBookmarked := !isBookmarked;
    }

    method OnBackdropError()
      modifies this
      ensures State() == Step(old(State()), BackdropFailed)
    {
      imageError := true;
    }

    /** `loadMovieDetails()`: `responses(url)` is what successive fetches of
        `url` yield. `fetchMovieDetails` never throws, so the catch block is
        never entered. */
    method LoadMovieDetails(apiKey: Option<string>, responses: string -> seq<Api.Outcome<Api.MovieDetails>>)
      requires Api.DefaultRetries <= |responses(Api.DetailsUrl(movieId))|
      modifies this
      ensures var data := Api.FetchMovieDetails(apiKey, movieId, responses);
        State() == Step(Step(old(State()), LoadStarted), Loaded(data))
    {
      loading := true;
      var result, _, _ := Api.FetchWithRetry(apiKey, responses(Api.DetailsUrl(movieId)));
      movie := Api.DetailsOrNull(result);
      loading := false;
    }
  }
}
