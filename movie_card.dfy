/** The logic of a movie card (components/movie-card.tsx): its rating colour,
    poster source, link target, and the four flags its handlers set. */
module MovieCard {
  import Api
  import Text
  import MovieDetailsPage

  // ---------------------------------------------------------------------------
  // getRatingColor: the card's own copy of the details page's bands

  const Green := "text-green-400"
  const Yellow := "text-yellow-400"
  const Red := "text-red-400"

  function GetRatingColor(rating: real): (color: string)
    ensures color == Green <==> rating >= 8.0
    ensures color == Yellow <==> 6.0 <= rating < 8.0
    ensures color == Red <==> rating < 6.0
  {
    if rating >= 8.0 then Green
    else if rating >= 6.0 then Yellow
    else Red
  }

  /** The card and the details page colour every rating alike. */
  lemma RatingColorsAgree(rating: real)
    ensures GetRatingColor(rating) == MovieDetailsPage.GetRatingColor(rating)
  {
  }

  // ---------------------------------------------------------------------------
  // Poster source and links

  const Placeholder := "/placeholder.svg"

  /** `getImageUrl(movie.poster_path) || "/placeholder.svg"`. */
  function PosterSource(m: Api.Movie): (src: string)
    ensures src != ""
    ensures m.posterPath != "" ==> src == Api.GetImageUrl(m.posterPath)
    ensures src == Placeholder <==> m.posterPath == ""
  {
    var url := Api.GetImageUrl(m.posterPath);
    if url != "" then url else Placeholder
  }

  const MovieRoute := "/movie/"

  /** `/movie/${movie.id}`: the target of the play and info links and the URL
      the share button passes on. */
  function MovieHref(id: int): (href: string)
    ensures |href| > |MovieRoute| && href[..|MovieRoute|] == MovieRoute
    ensures href[|MovieRoute|..] == Text.IntToDecimal(id)
  {
    MovieRoute + Text.IntToDecimal(id)
  }

  /** The id can be read back from the link, so different movies never share
      a link. */
  lemma MovieHrefDeterminesId(a: int, b: int)
    requires MovieHref(a) == MovieHref(b)
    ensures a == b
  {
    assert Text.IntToDecimal(a) == MovieHref(a)[|MovieRoute|..];
    Text.IntToDecimalInjective(a, b);
  }

  /** What the share button hands to `navigator.share`. */
  datatype ShareData = ShareData(title: string, text: string, url: string)

  function ShareDataOf(m: Api.Movie): (data: ShareData)
    ensures data.url == MovieHref(m.id)
    ensures data.title == m.title && data.text == m.overview
  {
    ShareData(m.title, m.overview, MovieRoute + Text.IntToDecimal(m.id))
  }

  // ---------------------------------------------------------------------------
  // Component state

  /** The card's `useState` flags. */
  datatype CardState = CardState(imageLoaded: bool, imageError: bool, isLiked: bool, isBookmarked: bool)

  const Initial := CardState(false, false, false, false)

  datatype CardEvent =
    | Like        // handleLike
    | Bookmark    // handleBookmark
    | ImageLoad   // the poster's onLoad
    | ImageFail   // the poster's onError

  /** The state after one handler has run. */
  function Step(s: CardState, e: CardEvent): CardState {
    match e
    case Like => s.(isLiked := !s.isLiked)
    case Bookmark => s.(isBookmarked := !s.isBookmarked)
    case ImageLoad => s.(imageLoaded := true)
    case ImageFail => s.(imageError := true)
  }

  /** The state after the handlers run in the order of `events`. */
  function Replay(s: CardState, events: seq<CardEvent>): CardState
    decreases |events|
  {
    if events == [] then s else Replay(Step(s, events[0]), events[1..])
  }

  /** Whatever happens, `imageLoaded` and `imageError` never go back from true
      to false, and each becomes true exactly through its own handler. */
  lemma {:induction false} ImageFlagsOnlyRise(s: CardState, events: seq<CardEvent>)
    ensures Replay(s, events).imageLoaded <==> s.imageLoaded || ImageLoad in events
    ensures Replay(s, events).imageError <==> s.imageError || ImageFail in events
    decreases |events|
  {
    if events != [] {
      ImageFlagsOnlyRise(Step(s, events[0]), events[1..]);
      assert events == [events[0]] + events[1..];
    }
  }

  /** The like and bookmark handlers flip their own flag and nothing else;
      each applied twice restores the card. */
  lemma TogglesAreInvolutions(s: CardState)
    ensures Step(Step(s, Like), Like) == s && Step(Step(s, Bookmark), Bookmark) == s
    ensures Step(s, Like).isLiked != s.isLiked && Step(s, Like).(isLiked := s.isLiked) == s
    ensures Step(s, Bookmark).isBookmarked != s.isBookmarked
         && Step(s, Bookmark).(isBookmarked := s.isBookmarked) == s
  {
  }

  /** The shimmer skeleton over the poster. */
  predicate ShowsSkeleton(s: CardState) {
    !s.imageLoaded && !s.imageError
  }

  /** What fills the poster area: the image (transparent until it has loaded)
      or, after a load error, the "No Image" panel. */
  datatype PosterArea = PosterImage(src: string, visible: bool) | NoImagePanel

  function PosterAreaOf(m: Api.Movie, s: CardState): (area: PosterArea)
    ensures area == NoImagePanel <==> s.imageError
    ensures area.PosterImage? ==> area.src == PosterSource(m) && area.visible == s.imageLoaded
  {
    if s.imageError then NoImagePanel else PosterImage(PosterSource(m), s.imageLoaded)
  }

  /** The skeleton shows until the first load or error event, and once the
      poster has failed the "No Image" panel stays whatever happens next. */
  lemma SkeletonUntilFirstImageEvent(m: Api.Movie, s: CardState, events: seq<CardEvent>)
    requires ShowsSkeleton(s)
    ensures ShowsSkeleton(Replay(s, events)) <==> ImageLoad !in events && ImageFail !in events
    ensures ImageFail in events ==> PosterAreaOf(m, Replay(s, events)) == NoImagePanel
  {
    ImageFlagsOnlyRise(s, events);
  }

  /** The component instance. */
  class MovieCardView {
    const movie: Api.Movie
    var imageLoaded: bool
    var imageError: bool
    var isLiked: bool
    var isBookmarked: bool

    function State(): CardState
      reads this
    {
      CardState(imageLoaded, imageError, isLiked, isBookmarked)
    }

    constructor (movie: Api.Movie)
      ensures this.movie == movie && State() == Initial
    {
      this.movie := movie;
      imageLoaded := false;
      imageError := false;
      isLiked := false;
      isBookmarked := false;
    }

    method HandleLike()
      modifies this
      ensures State() == Step(old(State()), Like)
    {
      isLiked := !isLiked;
    }

    method HandleBookmark()
      modifies this
      ensures State() == Step(old(State()), Bookmark)
    {
      isBookmarked := !isBookmarked;
    }

    method OnImageLoad()
      modifies this
      ensures State() == Step(old(State()), ImageLoad)
    {
      imageLoaded := true;
    }

    method OnImageError()
      modifies this
      ensures State() == Step(old(State()), ImageFail)
    {
      imageError := true;
    }
  }
}
