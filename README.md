# usePopcorn state logic in Dafny

A model of the state logic of a small movie-watchlist web application: the
star rating widget (`src/Star.js`), the application shell's watched list,
selection, detail view and summary (`src/App.js`), and the search hook
(`src/useMovies.js`). Rendering is left out. What stays are the state cells
of each component, the handlers that overwrite them, and the values derived
from them.

Files:

- `wrappers.dfy`: `Option`.
- `star_rating.dfy` (module `Star`): the widget as a class with `rate` and
  `hoverRate`. It has the three event methods, plus pure functions for the
  active level, the full/empty stars and the caption.
- `watched_list.dfy` (module `Watched`): entries, `findIndex`, delete-by-id
  (`filter`) and id uniqueness, as functions and lemmas.
- `summary.dfy` (module `Summary`): the runtime token, digit-only number
  reading, `average` over exact reals, and the summary figures.
- `app_shell.dfy` (module `AppShell`): the shell as a class `App`. It holds
  the watched list and the selection, and also the cells of the detail view:
  the record on show, its loading flag, the user's rating, the outstanding
  detail fetches and the mounted rating widget. A `Box` class covers the
  collapsible panels.
- `movie_search.dfy` (module `Movies`): `String.prototype.trim` and the
  search hook as a class `MovieSearch`. The network is replaced by events:
  query change, request completion with an outcome, and teardown.
- `scenarios.dfy` (module `Scenarios`): typical event sequences of the
  application (search, select, rate, add). Each is proved from the
  operations' contracts.

How React is modelled:

- Each `useState` cell is a field, and each setter call is an assignment.
- A state change and the synchronous part of the effect it triggers form one
  step. For example, selecting a movie mounts the detail view and starts its
  fetch at once.
- A fetch that resolves is an event method.
- A component's cells go back to their initial values when it unmounts.
- The detail view is mounted while a movie is selected and the right-hand
  box is open (`AppShell.App.Mounted`). Closing that box unmounts the view
  but keeps the selection; reopening it mounts the view afresh, which fetches
  again (`AppShell.App.ToggleDetailBox`).
- When the selection moves from one movie to another with the box open, the
  detail view stays mounted and keeps its cells. This includes `userRating`, which is not reset
  to 0 (`AppShell.App.SelectMovie`; see "## Findings").

Where a reader might expect otherwise, the model follows the code:

- The search hook never sets `isLoading` to true. `MovieSearch.Valid` states
  that it is always false.
- An empty trimmed query leaves the result list as it was. It is not cleared.
- A star is full when `(hoverRate || rate) >= i`. So a non-zero hover level
  wins even when it is below the committed rating; the code does not take
  the maximum of the two.
- The add handler appends with no duplicate check. The only guard is that the
  add button is hidden for a movie already in the list.
- The caption treats an empty message as absent.

## Model

| member | source | states |
|---|---|---|
| `Star.ActiveLevel` | src/Star.js:56-64 | the level shown is the hover level when non-zero, else the rating; it is 0 only when both are |
| `Star.IsFull` | src/Star.js:56 | star i (counted from 1) is full iff i ≤ the active level; at level 0 no star is full |
| `Star.FullFlags` | src/Star.js:53-56 | exactly `starsNumber` stars, numbered 1..n; star i is full iff i ≤ active level; the full stars form a prefix |
| `Star.FullCount` | src/Star.js:53-56 | the number of full stars is min(active level, `starsNumber`) |
| `Star.Label` | src/Star.js:64 | caption is `messages[active-1]` when that entry exists and is non-empty, else the active level when non-zero, else nothing |
| `Star.HoverHidesRate` | src/Star.js:56-64 | the active level is the hover level when that is non-zero: stars and caption then do not depend on `rate` |
| `Star.StarRating.constructor` | src/Star.js:15-25 | defaults 5 stars, no messages, rating 0, not read-only; initially `rate == defaultRating` and `hoverRate == 0` |
| `Star.StarRating.Rate` | src/Star.js:26-31 | read-only: nothing changes and `onRate` is not called; otherwise `rate := k`, `onRate(k)` if given, hover untouched; a clicked rating lies in 1..`starsNumber` |
| `Star.StarRating.HoverEnter` | src/Star.js:32-34 | unless read-only, `hoverRate := k` and the active level is k; `rate` never changes |
| `Star.StarRating.HoverLeave` | src/Star.js:35-37 | unless read-only, `hoverRate := 0` and the active level falls back to `rate`; `rate` never changes |
| `Watched.FindIndex` | src/App.js:137 | the first index whose entry has the id, or -1 when no entry has it |
| `Watched.WithUserRating` | src/App.js:141 | the stored entry keeps the record's id, title, runtime and rating and adds the user's rating |
| `Watched.IsWatched` | src/App.js:137-138 | `isWatched` holds iff some entry has the id |
| `Watched.Delete` | src/App.js:24-26 | an entry survives iff it was in the list and its id differs; the list never grows |
| `Watched.DeleteConcat` | src/App.js:25 | deletion distributes over concatenation, so kept entries keep their order |
| `Watched.DeleteSingle` | src/App.js:25 | a single entry is kept exactly when its id differs |
| `Watched.DeleteAbsent` | src/App.js:25 | deleting an id that is not present leaves the list unchanged |
| `Watched.DeleteIdempotent` | src/App.js:25 | deleting twice equals deleting once |
| `Watched.DeleteUnwatches` | src/App.js:25 | after deletion the id is no longer watched |
| `Watched.DeleteKeepsUnique` | src/App.js:24-26 | deletion preserves uniqueness of ids |
| `Watched.AppendFreshKeepsUnique` | src/App.js:20-22 | appending an entry whose id is not watched preserves uniqueness of ids |
| `Summary.LeadingToken` | src/App.js:280 | `split(" ")[0]`: a prefix of the text with no space, followed by a space or the end |
| `Summary.NumberOfToken` | src/App.js:280 | `Number(token)` is read exactly for digit-only tokens, the empty token reading 0 |
| `Summary.DecimalRoundTrip` | src/App.js:280 | reading back the decimal writing of n gives n |
| `Summary.RuntimeOfFormatted` | src/App.js:280 | a runtime written "n unit" counts as n minutes |
| `Summary.RuntimeMinutes` | src/App.js:280 | a runtime is read iff its leading token is all digits; a runtime with no space is read whole; the empty runtime reads as 0 |
| `Summary.Accumulate` | src/App.js:7 | the reduce adds up to initial value + sum / length |
| `Summary.Average` | src/App.js:7 | `average` is the arithmetic mean (mean × count = sum) and 0 for an empty list |
| `Summary.UserRatings` | src/App.js:279 | the user ratings, one per entry, in order |
| `Summary.Runtimes` | src/App.js:280 | the runtime minutes, one per entry, defined iff every runtime token is digit-only |
| `Summary.AverageUserRating` | src/App.js:279 | mean of the user ratings; 0 for an empty list |
| `Summary.AverageRuntime` | src/App.js:280 | mean of the runtime minutes when all are read; 0 for an empty list |
| `Summary.Summarize` | src/App.js:277-287 | the count is the list length; an empty list shows 0 movies and means 0 |
| `Summary.MeanRuntimeExample` | src/App.js:280 | runtimes "136 min" and "148 min" average 142 |
| `AppShell.RightPane` | src/App.js:41-53 | the detail pane is shown iff the selection is non-empty, otherwise summary and watched list, never both |
| `AppShell.SeedFor` | src/App.js:199-200 | the widget is read-only iff the movie is watched, seeded with the first entry's stored rating, else 0 |
| `AppShell.App.constructor` | src/App.js:11-13 | the list comes from storage, nothing is selected, no detail view |
| `AppShell.App.SelectMovie` | src/App.js:16-18 | as written: the selection becomes the id; with the right-hand box open, mounting and switching (keeping `userRating`) each start a fetch, and unmounting resets the detail view's cells; with it closed, only the selection changes |
| `AppShell.App.SelectMovieFresh` | src/App.js:16-18 | corrected: as `SelectMovie`, but a switch also resets `userRating` to 0, so the rating that would be stored is the one the widget shows |
| `AppShell.App.ToggleDetailBox` | src/App.js:120-127 | the right-hand box flips; closing discards the detail view's cells, widget and pending fetches but keeps the selection; opening with a movie selected starts loading it afresh with rating 0 |
| `AppShell.App.Back` | src/App.js:136-146 | back and escape clear the selection and show the watched list; the list is untouched |
| `AppShell.App.MountWidget` | src/App.js:194-201 | the detail view's widget: 10 stars, `onRate` given, read-only and seed as `SeedFor` |
| `AppShell.App.DetailLoaded` | src/App.js:148-161 | as written: any answer clears the loading flag and replaces the record, whatever is selected |
| `AppShell.App.DetailLoadedCurrent` | src/App.js:148-161 | corrected: an answer for a movie no longer selected is dropped, so when the catalogue answers with the record asked for, the record on show is the selected movie's |
| `AppShell.App.RateStar` | src/App.js:198 | a click on star k rates k and stores it as `userRating`, unless the movie is watched |
| `AppShell.App.HoverStar` | src/Star.js:58 | hovering star k in the detail view previews k unless read-only |
| `AppShell.App.LeaveStar` | src/Star.js:59 | leaving a star clears the preview unless read-only |
| `AppShell.App.AddToWatched` | src/App.js:20-22 | appends exactly one entry at the end; earlier entries and their order unchanged |
| `AppShell.App.AddFromDetail` | src/App.js:140-144 | clears the selection and appends the record on show with `userRating`; with the record matching the selection, ids stay unique; with the rating on show, the stored rating is the widget's |
| `AppShell.App.DeleteWatched` | src/App.js:24-26 | the list becomes the filtered list; the id is gone; ids stay unique |
| `AppShell.Box.constructor` | src/App.js:120 | a box starts open |
| `AppShell.Box.Toggle` | src/App.js:124 | the toggle flips `isOpen` |
| `Movies.TrimStart` | src/useMovies.js:22 | removes exactly the leading white space |
| `Movies.TrimEnd` | src/useMovies.js:22 | removes exactly the trailing white space |
| `Movies.Trim` | src/useMovies.js:22 | the trimmed query is the query without its leading white space, cut back by white space only, and neither starts nor ends with white space |
| `Movies.TrimEmptyIff` | src/useMovies.js:22 | the trimmed query is empty iff the query is all white space |
| `Movies.HasText` | src/useMovies.js:22 | a query asks for a search iff it is not all white space |
| `Movies.MovieSearch.Aborted` | src/useMovies.js:12-32 | every earlier effect run's controller is aborted; the current one is aborted iff the consumer is gone |
| `Movies.MovieSearch.constructor` | src/useMovies.js:5-29 | initially no movies, not loading, no error; the first effect sends a request iff the trimmed query is non-empty |
| `Movies.MovieSearch.Cleanup` | src/useMovies.js:31-35 | cleanup sets `isLoading := false` and `error := ""` and leaves the movies |
| `Movies.MovieSearch.ChangeQuery` | src/useMovies.js:10-38 | same query: nothing runs; otherwise cleanup aborts every earlier request, clears the error, keeps the movies and sends a request iff the trimmed query is non-empty; an aborted controller stays aborted |
| `Movies.MovieSearch.Reject` | src/useMovies.js:23-28 | a failure clears loading and sets the error to its message unless it is an AbortError |
| `Movies.MovieSearch.Settle` | src/useMovies.js:17-28 | `Response == "False"` sets the error and keeps the movies; success replaces the movies wholesale |
| `Movies.MovieSearch.Complete` | src/useMovies.js:12-28 | an aborted request commits nothing; only the current effect's request can change movies or error; `isLoading` stays false |
| `Movies.MovieSearch.Teardown` | src/useMovies.js:31-35 | teardown aborts the live request and resets loading and error; an aborted controller stays aborted |
| `Scenarios.RateAndAdd` | src/App.js:140-144 | select, load, rate 8, add: the list gains exactly that entry with rating 8 and the view returns to the list |
| `Scenarios.StaleDetailDuplicates` | src/App.js:148-161 | with the loader as written, a late answer for a watched movie lets the add button store its id twice |
| `Scenarios.StaleDetailDropped` | src/App.js:148-161 | with the corrected loader, the same events leave ids unique |
| `Scenarios.RatingCarriesOver` | src/App.js:135-141 | with the selection step as written, rating A 7, switching to B and adding B stores 7 while B's widget shows 0 |
| `Scenarios.RatingResetOnSwitch` | src/App.js:135-141 | with the corrected selection step, the same events store the 0 the widget shows |
| `Scenarios.SearchFinds` | src/useMovies.js:20 | a search answered with three movies shows those three, not loading, no error |
| `Scenarios.SearchNotFound` | src/useMovies.js:19-27 | a "Movie not found!" answer shows that message and keeps the earlier results |
| `Scenarios.SupersededSearchIgnored` | src/useMovies.js:31-35 | when two queries' answers arrive in reverse order, the superseded query's answer is never shown |

## Left out

- Rendering: JSX, styles, the SVG star shapes, the loading and error indicators of the search-results box, and the result counter.
- The network: `fetch`, `.json()` and the URLs. Search outcomes and detail records are event parameters.
- The abort controller's internals. The model takes it as given that an aborted request ends in an AbortError.
- The key-binding utility (`src/useKey.js`): it only subscribes DOM listeners. The Escape binding appears as `AppShell.App.Back`, which like the listener exists only while the detail view is mounted.
- The search box's focus handling and its Enter key (`src/App.js:86-105`), and the document title (`src/App.js:163-169`): DOM side effects.
- Persistence: `src/useLocalStorageState.js` is not part of this model. The stored list is a constructor parameter.
- The API key: configuration.
- Renders between a state change and the effect it triggers are not modelled, so no event can happen in that window.
- Detail fetches still in flight when the detail view unmounts: their answers are ignored by React and are not modelled as events.
- `Summary.NumberOfToken`: `Number` is evaluated only on digit-only tokens. Others, such as "N/A" (NaN), decimals or exponents, give None.
- `Summary.Average`: computed over exact reals, so it does not capture floating-point rounding, and `toFixed(2)` is not modelled.
- `Summary.Summarize`: the mean external rating (`imdbRating`, a numeric string converted to a float) is not modelled.
- `Star.Label`: a message that is not a string, and the decimal rendering of the level, are not modelled.
- `Watched.Movie`: the detail record keeps the fields that the lookup, deletion and summary use, plus the title. Poster, release date, genre, plot, cast and director are display only.
- `AppShell.App.DetailLoaded` and `AppShell.App.DetailLoadedCurrent`: a detail answer is any `Movie` value. An error answer of the catalogue (`Response: "False"`, no `imdbID`) is modelled as a record whose fields are "", not as an object without them. The corrected loader keeps the record on show that of the selected movie only when the answer carries the id asked for. Adding such an answer stores an entry without `Runtime`; in the source `Summary` then throws a TypeError at `movie.Runtime.split` (`src/App.js:280`) and the application stops rendering, while the model reads that entry's runtime "" as 0 minutes (`Summary.RuntimeMinutes`, `Summary.Summarize`).

## Findings

| source | as written | input that shows it | evidently intended | confidence | as-written member | corrected member |
|---|---|---|---|---|---|---|
| src/App.js:148-161 | The detail loader applies every answer it receives, including one for a movie that is no longer selected. The add button checks only the selected id. | Movie A is already watched. Open A, then switch to B before A's details arrive. B's answer comes first and A's last. Press add: A is stored twice (`Scenarios.StaleDetailDuplicates`). | An answer for a superseded selection is dropped. Then the add path never stores an id twice (`Scenarios.StaleDetailDropped`, `Scenarios.RateAndAdd`). | not executed | `AppShell.App.DetailLoaded` | `AppShell.App.DetailLoadedCurrent` |
| src/App.js:135-141 | Switching from one movie to another keeps the detail view mounted, so `userRating` keeps the previous movie's rating, while the remounted widget starts at 0. | Open A and give it 7 stars. Switch to B, let it load and press add without rating: B is stored with 7 while its widget shows 0 (`Scenarios.RatingCarriesOver`). | A new selection starts with no rating. Then the stored rating is always the one the widget shows (`AppShell.App.RatingOnShow`, kept by every operation of the corrected model; `Scenarios.RatingResetOnSwitch`). | not executed | `AppShell.App.SelectMovie` | `AppShell.App.SelectMovieFresh` |
