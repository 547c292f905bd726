# Movie catalogue client and card/details logic, in Dafny

This project models the part of the movie discovery site that is more than
markup:

- **The catalogue client** (`lib/api.ts`, module `Api`).
  - `fetchWithRetry` is an attempt loop over a sequence of per-attempt
    outcomes. Each outcome is an ok response with its body, a non-ok status,
    or a thrown network error. The loop fails fast when the API key is
    missing. It waits `1000*(i+1)` ms after a 429 and `500*(i+1)` ms after
    any other failure, rethrows a hard failure on the last attempt, and
    otherwise ends with "Max retries exceeded". Waits are recorded in a
    sequence instead of slept.
  - The loop is an imperative method, `Api.FetchWithRetry`. It is proved
    equal to a recursive reference function, `Api.RetryFrom`. The
    properties are lemmas about that function.
  - `fetchNowPlayingMovies`, `fetchPopularMovies` and `fetchMovieDetails`
    turn every failure into `[]` or `null`. They return `result.results` or
    the body itself, unchanged.
  - `getImageUrl` and `getOptimizedImageUrl` build image URLs.
- **The details page** (`components/movie-details.tsx`, module
  `MovieDetailsPage`): `formatRuntime`, the zero branch of `formatCurrency`,
  the rating colour bands, the image sources, the sidebar row guards, and the
  component state. That state is `movie`, `loading`, `isLiked`,
  `isBookmarked` and `imageError`. It is a class whose methods are proved
  against a pure `Step` function over a state record.
- **The movie card** (`components/movie-card.tsx`, module `MovieCard`): its
  copy of the rating colours, the poster source, the `/movie/{id}` link, and
  the four flags set by its handlers. These are modelled the same way.

The module `Text` models how a template literal prints an integral number
below 10^21 in magnitude, and
JavaScript's truncating `%`. The module `Optional` holds the `Option` type.

The backoff is not monotone in general. With the default budget of three
attempts, which every caller in the repository uses, the waits never decrease
(`Api.DefaultBackoffNonDecreasing`). With four attempts, the outcomes
"failure, 429, failure" wait 500, 2000 and then 1500
(`Api.LargerBudgetBackoffCanDecrease`).

Under the default budget the waits are non-decreasing, and they can repeat:
a 429 and then a failure wait 1000 and 1000. The sized image URL is
`https://image.tmdb.org/t/p/` followed directly by the size and the path. The
fetchers return the server's JSON as it came, with no field mapping.

## Model

| member | source | states |
|---|---|---|
| `Api.FetchWithRetry` | lib/api.ts:48-71 | The attempt loop returns exactly the result, recorded waits and attempt count of the recursive reference `RetryFrom` (after the key check). |
| `Api.RetryFrom` | lib/api.ts:53-70 | The recursive reference for the loop from attempt i on. It never throws the missing-key error, and from an attempt below `retries` it makes between 1 and `retries - i` attempts. |
| `Api.FetchRun` | lib/api.ts:48-71 | A whole call. It throws the missing-key error if and only if the key is unset or empty, and then makes no attempt. |
| `Api.AttemptBound` | lib/api.ts:48-70 | Without a key: thrown before any attempt. With a key and `retries <= 0`: no attempt, "Max retries exceeded". Otherwise between 1 and `retries` attempts. |
| `Api.RetryFromWaits` | lib/api.ts:59-67 | Wait j follows failed attempt j and is 1000*(j+1) for a 429, else 500*(j+1). There is one wait per attempt except after the last attempt, which waits only when it ends the loop by a 429. |
| `Api.FirstOkWins` | lib/api.ts:55-58 | The first ok response is returned at once with its body, after k+1 attempts and k waits. |
| `Api.SucceedsIff` | lib/api.ts:49-58 | The call succeeds if and only if the key is set and one of the first `retries` outcomes is ok. |
| `Api.NoOkFails` | lib/api.ts:59-70 | With no ok response, every attempt is made and the call throws. The error is the last attempt's HTTP or network error, or "Max retries exceeded" when that attempt was a 429. |
| `Api.LastAttemptEndings` | lib/api.ts:59-70 | A 429 on the last attempt records its 1000*retries wait and ends with "Max retries exceeded". A hard failure there is rethrown with no wait. |
| `Api.DefaultBackoffNonDecreasing` | lib/api.ts:48-67 | With 3 attempts the waits are non-decreasing: first 500 or 1000, second 1000 or 2000, third 3000 and only after a 429. |
| `Api.LargerBudgetBackoffCanDecrease` | lib/api.ts:59-67 | With 4 attempts, a failure, a 429 and a failure wait 500, 2000, 1500. |
| `Api.RateLimitedTwiceThenOk` | lib/api.ts:53-63 | Two 429s then an ok response: success on the third attempt after waiting 1000 and 2000. |
| `Api.ListingOrEmpty` | lib/api.ts:74-81 | The try/catch of a listing fetcher. A thrown call gives `[]`. A successful call gives its body's `results`, or `[]` when absent. A non-empty listing is the `results` of a successful call's body. |
| `Api.DetailsOrNull` | lib/api.ts:96-103 | The try/catch of the details fetcher. It gives a movie if and only if the call succeeded, and that movie is the body. |
| `Api.FetchNowPlayingMovies` | lib/api.ts:73-82 | Gives `[]` without a key or with no ok response in 3 attempts. Otherwise it gives the `results` of the first ok response (`[]` when absent). A non-empty result is exactly that array. |
| `Api.FetchPopularMovies` | lib/api.ts:84-93 | The same contract for the popular-movies URL. |
| `Api.ListingResult` | lib/api.ts:73-93 | A listing is the `results` of the first ok response (or `[]` when that body has none), and `[]` when there is no key or no ok response. |
| `Api.ListingIsServerResults` | lib/api.ts:77-77 | A non-empty listing is passed on unchanged from an ok response's `results`. |
| `Api.FetchMovieDetails` | lib/api.ts:95-104 | Gives a movie if and only if the key is set and some attempt of 3 is ok. The movie is the body of the first ok response, unchanged. Otherwise `null`. |
| `Api.DetailsResult` | lib/api.ts:95-104 | The same statement about `DetailsOrNull` of the run over the details outcomes. |
| `Api.DetailsNotFound` | lib/api.ts:95-104 | Three 404s make 3 attempts with waits 500 and 1000, throw the 404, and the fetcher gives `null`. |
| `Api.GetImageUrl` | lib/api.ts:106-109 | Gives "" if and only if the path is empty. Otherwise the full-size prefix followed by the path. |
| `Api.GetOptimizedImageUrl` | lib/api.ts:111-114 | Gives "" if and only if the path is empty. Otherwise the image root, the size token (default w500) and the path. |
| `Api.ImageUrlIsOriginalSize` | lib/api.ts:106-114 | `getImageUrl(p)` equals `getOptimizedImageUrl(p, "original")` for every p. |
| `Api.ImageUrlRoundTrip` | lib/api.ts:111-114 | Size and path can be read back from every non-empty image URL. |
| `Text.IntToDecimal` | components/movie-card.tsx:129-129 | How `${n}` prints an integral number below 10^21 in magnitude: a non-empty string, the digits of n with no leading zero, behind a `-` when n is negative. |
| `Text.DecimalRoundTrip` | components/movie-details.tsx:56-56 | Reading back the printed digits of a natural number gives the number. |
| `Text.IntRoundTrip` | components/movie-card.tsx:129-129 | Reading back a printed integer, sign included, gives the integer. |
| `Text.JsRemainder` | components/movie-details.tsx:55-55 | `%` as JavaScript computes it: the remainder has the dividend's sign, is smaller than the divisor in absolute value, and differs from the dividend by a multiple of it. |
| `MovieDetailsPage.FormatRuntime` | components/movie-details.tsx:52-57 | "N/A" if and only if the runtime is 0. For a positive runtime the text is `{h}h {m}m` with h*60+m equal to the runtime and m < 60. |
| `MovieDetailsPage.RuntimeTextDeterminesRuntime` | components/movie-details.tsx:52-57 | Two different positive runtimes never print the same text. |
| `MovieDetailsPage.HoursMinutesTextInjective` | components/movie-details.tsx:56-56 | The text `{h}h {m}m` determines h and m. |
| `MovieDetailsPage.FormatCurrency` | components/movie-details.tsx:59-67 | "Not disclosed" if and only if the amount is 0. Otherwise the currency format of that same amount. |
| `MovieDetailsPage.BudgetRowShown` | components/movie-details.tsx:367-372 | The budget row is rendered only for a positive budget. |
| `MovieDetailsPage.RevenueRowShown` | components/movie-details.tsx:374-379 | The revenue row is rendered only for a positive revenue. |
| `MovieDetailsPage.SidebarAmountRows` | components/movie-details.tsx:367-379 | The rows rendered: budget first when positive, revenue last when positive, each with the currency text of its own amount. No rendered row reads "Not disclosed". |
| `MovieDetailsPage.SidebarRowsShowDisclosedAmounts` | components/movie-details.tsx:367-379 | The budget and revenue rows appear only for positive amounts, so a shown row never reads "Not disclosed". |
| `MovieDetailsPage.GetRatingColor` | components/movie-details.tsx:69-73 | Green if and only if rating >= 8, yellow if and only if 6 <= rating < 8, red if and only if rating < 6. |
| `MovieDetailsPage.RatingColorMonotone` | components/movie-details.tsx:69-73 | A higher rating never gets a worse band. |
| `MovieDetailsPage.BackdropSource` | components/movie-details.tsx:127-127 | The hero image is the full-size backdrop, else the full-size poster, else the placeholder. It is never empty. |
| `MovieDetailsPage.PosterSource` | components/movie-details.tsx:158-158 | The w500 poster, or the placeholder exactly when there is no poster path. |
| `MovieDetailsPage.HeroAreaOf` | components/movie-details.tsx:125-136 | The gradient replaces the hero image if and only if `imageError` is set. |
| `MovieDetailsPage.ScreenOf` | components/movie-details.tsx:95-117 | Spinner if and only if loading. "Movie not found" if and only if loaded with no movie. Otherwise the page of the held movie. |
| `MovieDetailsPage.TogglesAreInvolutions` | components/movie-details.tsx:75-76 | Like flips only `isLiked` and bookmark only `isBookmarked`. Each applied twice restores the state. |
| `MovieDetailsPage.TogglesFollowParity` | components/movie-details.tsx:75-76 | After any events, `isLiked` (`isBookmarked`) is its start value flipped by the parity of the like (bookmark) events. |
| `MovieDetailsPage.BackdropErrorSticks` | components/movie-details.tsx:132-136 | Once the backdrop has failed, it stays failed and the gradient stays. |
| `MovieDetailsPage.LoadSettles` | components/movie-details.tsx:40-50 | A completed load leaves `loading` false and `movie` the fetched value, keeps the flags, and shows "Movie not found" if and only if the fetch gave `null`. |
| `MovieDetailsPage.MovieDetailsView.constructor` | components/movie-details.tsx:30-34 | A new page holds no movie, is loading, and has all flags clear. |
| `MovieDetailsPage.MovieDetailsView.HandleLike` | components/movie-details.tsx:75-75 | The new state is the like step of the old one. |
| `MovieDetailsPage.MovieDetailsView.HandleBookmark` | components/movie-details.tsx:76-76 | The new state is the bookmark step of the old one. |
| `MovieDetailsPage.MovieDetailsView.OnBackdropError` | components/movie-details.tsx:132-132 | Sets `imageError` and nothing else. |
| `MovieDetailsPage.MovieDetailsView.LoadMovieDetails` | components/movie-details.tsx:40-50 | Runs the retry loop on the details URL. The new state is the old one with `movie` set to `fetchMovieDetails`' result and `loading` false. |
| `MovieCard.GetRatingColor` | components/movie-card.tsx:32-36 | The same three bands: green at 8 and above, yellow from 6 to below 8, red below 6. |
| `MovieCard.RatingColorsAgree` | components/movie-card.tsx:32-36 | The card and the details page give every rating the same colour. |
| `MovieCard.PosterSource` | components/movie-card.tsx:68-68 | `getImageUrl(poster_path)` when the path is non-empty, otherwise "/placeholder.svg". It is never empty. |
| `MovieCard.MovieHref` | components/movie-card.tsx:129-129 | "/movie/" followed by the printed id. The info link at line 146 and the share URL at line 57 are the same string. |
| `MovieCard.MovieHrefDeterminesId` | components/movie-card.tsx:146-146 | Different ids never give the same link. |
| `MovieCard.ShareDataOf` | components/movie-card.tsx:53-58 | Shares the title, the overview and the movie's link. |
| `MovieCard.ImageFlagsOnlyRise` | components/movie-card.tsx:75-76 | After any handlers, `imageLoaded` (`imageError`) is set if and only if it was set before or a load (error) event happened, so neither flag ever goes back to false. |
| `MovieCard.TogglesAreInvolutions` | components/movie-card.tsx:38-48 | Like flips only `isLiked` and bookmark only `isBookmarked`. Each applied twice restores the card. |
| `MovieCard.PosterAreaOf` | components/movie-card.tsx:66-93 | The "No Image" panel if and only if `imageError`. Otherwise the poster source, visible exactly when loaded. |
| `MovieCard.ShowsSkeleton` | components/movie-card.tsx:96-98 | The shimmer shows while the poster has neither loaded nor failed. |
| `MovieCard.SkeletonUntilFirstImageEvent` | components/movie-card.tsx:96-98 | From a fresh card, the shimmer shows if and only if no load or error event has happened. After an error the panel replaces the image. |
| `MovieCard.MovieCardView.constructor` | components/movie-card.tsx:19-22 | A new card has all four flags clear. |
| `MovieCard.MovieCardView.HandleLike` | components/movie-card.tsx:38-42 | The new state is the like step of the old one. |
| `MovieCard.MovieCardView.HandleBookmark` | components/movie-card.tsx:44-48 | The new state is the bookmark step of the old one. |
| `MovieCard.MovieCardView.OnImageLoad` | components/movie-card.tsx:75-75 | Sets `imageLoaded` and nothing else. |
| `MovieCard.MovieCardView.OnImageError` | components/movie-card.tsx:76-76 | Sets `imageError` and nothing else. |

## Left out

- Network I/O is not modelled: `fetch`, the request options and bearer header, and the sleeps. Each attempt's outcome comes from a given sequence, and each sleep is a recorded duration.
- Api.FetchWithRetry: requires at least `retries` outcomes, because the environment must supply an outcome for every attempt the loop may make. This does not restrict the source's callers.
- `response.json()` failing is not modelled. Bodies arrive decoded, with the types the TypeScript interfaces declare. The wrappers would turn such a failure into `[]` or `null`, like any other.
- The API key is a parameter, because the module reads `process.env.TMDB_API_KEY` once at load. The `console.warn` and `console.error` calls are logging only.
- Image paths the server sends as `null` are modelled as "". Both are falsy for `!path` and for `||`.
- Text.IntToDecimal, MovieDetailsPage.FormatRuntime, MovieCard.MovieHref: ids and runtimes are JavaScript numbers (doubles), while the model's integers are unbounded. The model matches the source for integral values below 2^53 in magnitude. From 10^21 on, `${n}` prints exponent form, and near 2^53 `Math.floor(minutes / 60)` is no longer exact.
- MovieDetailsPage.FormatRuntime: runtimes are integers. A fractional, `NaN` or missing runtime is not modelled. Negative runtimes follow JavaScript's floor division and truncating `%`.
- MovieDetailsPage.FormatCurrency: the non-zero branch gives a tag holding the amount, not the `Intl.NumberFormat` text, which is library and locale behaviour.
- `Date` parsing (`getFullYear`, `toLocaleDateString`), `toFixed(1)`, `Math.round` and `toLocaleString` are not modelled. They are floating point and locale formatting.
- The details page's `handleShare` (it uses `window.location.href`) is not modelled. `navigator.share` and the clipboard are not modelled either; only the card's share payload is.
- The effect that reloads on a `movieId` change is not modelled. Overlapping loads that race to set `movie` are a concurrency concern, and the model runs one load to completion.
- components/movies-container.tsx, filter-options.tsx, magnetic-button.tsx, animated-page.tsx, error-boundary.tsx, loading-spinner.tsx, app/layout.tsx and app/page.tsx are not modelled: they hold rendering, DOM and animation state only. The same goes for the markup of the two modelled components, such as the original-title line and the animated counters.
