/**
 * The application shell of src/App.js: the watched list, the selected
 * movie, the state of the detail view (`SelectedMovie`) with its rating
 * widget, and the collapsible boxes.
 *
 * React state updates become field assignments.  A state change and the
 * synchronous part of the effect it triggers are one step: selecting a
 * movie mounts or updates the detail view and starts its fetch at once.
 * Fetch responses of the detail view are events, `DetailLoaded`.
 */
module AppShell {
  import opened Wrappers
  import opened Watched
  import Star

  /** The detail view's widget has ten stars, no messages and an `onRate` callback. */
  const StarsNumber: nat := 10

  /** The detail record before anything has loaded (`{}`): every field undefined, modelled as "". */
  const NoMovie: Movie := Movie("", "", "", "")

  /** What the right-hand box shows. */
  datatype Pane = DetailPane(movieId: string) | WatchedPane

  /** `selectedMovieId ? <SelectedMovie/> : <Summary/> + <MovieList/>` */
  function RightPane(selected: string): (pane: Pane)
    ensures pane.DetailPane? <==> selected != ""
    ensures pane.DetailPane? ==> pane.movieId == selected
  {
    if selected != "" then DetailPane(selected) else WatchedPane
  }

  /** How the detail view mounts its rating widget. */
  datatype WidgetSeed = WidgetSeed(readOnly: bool, defaultRating: nat)

  /**
   * `readOnly={isWatched}` and `defaultRating={isWatched ? watched[idx].userRating : 0}`:
   * a watched movie shows the rating stored with its first entry and cannot
   * be rated again; any other movie starts at 0.
   */
  function SeedFor(watched: seq<Entry>, movieId: string): (seed: WidgetSeed)
    ensures seed.readOnly <==> Mentions(watched, movieId)
    ensures seed.readOnly ==>
      exists i :: 0 <= i < |watched| && watched[i].imdbID == movieId
        && (forall j :: 0 <= j < i ==> watched[j].imdbID != movieId)
        && seed.defaultRating == watched[i].userRating
    ensures !seed.readOnly ==> seed.defaultRating == 0
  {
    var idx := FindIndex(watched, movieId);
    if idx != -1 then WidgetSeed(true, watched[idx].userRating) else WidgetSeed(false, 0)
  }

  class App {
    var watched: seq<Entry>
    var selected: string
    /**
     * `isOpen` of the right-hand box.  Its children, and so the detail view,
     * are rendered only while it is open.
     */
    var detailOpen: bool
    // The cells of the detail view; they hold their initial values while it is not mounted.
    var movie: Movie
    var detailLoading: bool
    var userRating: nat
    /** The ids of the detail view's fetches that have not answered yet. */
    var pending: multiset<string>
    /** The rating widget, mounted while the details (not the loading indicator) are shown. */
    var star: Star.StarRating?

    /** The detail view is mounted: a movie is selected and the right-hand box is open. */
    predicate Mounted()
      reads this
    {
      selected != "" && detailOpen
    }

    ghost predicate Valid()
      reads this, star
    {
      && (!Mounted() ==> movie == NoMovie && !detailLoading && userRating == 0 && pending == multiset{})
      && (detailLoading ==> selected in pending)
      && (star != null <==> Mounted() && !detailLoading)
      && (star != null ==>
            && star.Valid()
            && star.starsNumber == StarsNumber && star.messages == [] && star.hasOnRate
            && star.readOnly == IsWatched(watched, selected))
    }

    /** The detail record on show belongs to the selected movie. */
    ghost predicate ShowsSelected()
      reads this
    {
      Mounted() && !detailLoading ==> movie.imdbID == selected
    }

    /**
     * The rating the add button would store is the one the widget shows:
     * 0 while the details load, and the widget's rating once it is up and
     * the movie can still be rated.
     */
    ghost predicate RatingOnShow()
      reads this, star
    {
      && (Mounted() && star == null ==> userRating == 0)
      && (star != null && !star.readOnly ==> userRating == star.rate)
    }

    /** Start-up, with the list read back from storage. */
    constructor (stored: seq<Entry>)
      ensures Valid() && ShowsSelected() && RatingOnShow()
      ensures watched == stored && selected == "" && detailOpen && star == null
    {
      watched := stored;
      selected := "";
      detailOpen := true;
      movie := NoMovie;
      detailLoading := false;
      userRating := 0;
      pending := multiset{};
      star := null;
    }

    /**
     * `handleSelectMovie(id)`.  With the right-hand box open: from no
     * selection this mounts the detail view, which starts fetching; to "" it
     * unmounts it; from one movie to another the view stays mounted, keeps
     * its cells and fetches again.  With the box closed only the selection
     * changes.
     */
    method SelectMovie(id: string)
      requires Valid()
      modifies this
      ensures Valid()
      ensures selected == id && watched == old(watched) && detailOpen == old(detailOpen)
      ensures RightPane(selected) == if id == "" then WatchedPane else DetailPane(id)
      ensures id == old(selected) || !detailOpen ==>
        (movie == old(movie) && detailLoading == old(detailLoading)
         && userRating == old(userRating) && pending == old(pending))
      ensures id == old(selected) ==> star == old(star)
      ensures id != old(selected) ==> star == null
      ensures detailOpen && id != old(selected) && id != "" ==> detailLoading
      ensures detailOpen && id != old(selected) && id != "" && old(selected) == "" ==>
        (movie == NoMovie && userRating == 0 && pending == multiset{id})
      ensures detailOpen && id != old(selected) && id != "" && old(selected) != "" ==>
        (movie == old(movie) && userRating == old(userRating) && pending == old(pending) + multiset{id})
      ensures old(ShowsSelected()) ==> ShowsSelected()
    {
      if id != selected {
        if id == "" {
          movie, detailLoading, userRating, pending := NoMovie, false, 0, multiset{};
        } else if detailOpen {
          pending := pending + multiset{id};
          detailLoading := true;
        }
        selected := id;
        star := null;
      }
    }

    /**
     * `handleSelectMovie(id)` where a switch from one movie to another also
     * resets the user's rating, as a fresh detail view would start: the
     * rating stored on add is then always the one the widget shows.
     */
    method SelectMovieFresh(id: string)
      requires Valid()
      modifies this
      ensures Valid() && (old(RatingOnShow()) ==> RatingOnShow())
      ensures id != old(selected) ==> RatingOnShow()
      ensures selected == id && watched == old(watched) && detailOpen == old(detailOpen)
      ensures RightPane(selected) == if id == "" then WatchedPane else DetailPane(id)
      ensures id == old(selected) ==>
        (movie == old(movie) && detailLoading == old(detailLoading)
         && userRating == old(userRating) && pending == old(pending) && star == old(star))
      ensures id != old(selected) ==> star == null && userRating == 0
      ensures !detailOpen ==> movie == old(movie) && detailLoading == old(detailLoading) && pending == old(pending)
      ensures detailOpen && id != old(selected) && id != "" ==> detailLoading
      ensures detailOpen && id != old(selected) && id != "" && old(selected) == "" ==>
        (movie == NoMovie && pending == multiset{id})
      ensures detailOpen && id != old(selected) && id != "" && old(selected) != "" ==>
        (movie == old(movie) && pending == old(pending) + multiset{id})
      ensures old(ShowsSelected()) ==> ShowsSelected()
    {
      var switching := id != selected;
      SelectMovie(id);
      if switching {
        userRating := 0;
      }
    }

    /**
     * `handleBack`, bound to the back button and to the Escape key, both of
     * which exist only while the detail view is mounted.
     */
    method Back()
      requires Valid() && Mounted()
      modifies this
      ensures Valid() && ShowsSelected() && RatingOnShow()
      ensures selected == "" && RightPane(selected) == WatchedPane && star == null
      ensures watched == old(watched) && detailOpen == old(detailOpen)
    {
      SelectMovie("");
    }

    /** The widget comes up as the detail view renders its details. */
    method MountWidget()
      requires selected != "" && !detailLoading && star == null
      modifies this
      ensures fresh(star)
      ensures star.starsNumber == StarsNumber && star.messages == [] && star.hasOnRate
      ensures star.readOnly == SeedFor(watched, selected).readOnly
      ensures star.rate == SeedFor(watched, selected).defaultRating && star.hoverRate == 0
      ensures star.Valid()
      ensures watched == old(watched) && selected == old(selected) && movie == old(movie)
      ensures detailLoading == old(detailLoading) && userRating == old(userRating) && pending == old(pending)
      ensures detailOpen == old(detailOpen)
    {
      var seed := SeedFor(watched, selected);
      star := new Star.StarRating(StarsNumber, [], seed.defaultRating, seed.readOnly, true);
    }

    /**
     * `loadMovie` finishes for `id` with the answer `m`, as written: the
     * answer is shown whichever movie is selected now.  The answer need not
     * carry the id that was asked for; an error answer of the catalogue is
     * a record whose fields are all "".
     */
    method DetailLoaded(id: string, m: Movie)
      requires Valid() && id in pending
      modifies this
      ensures Valid()
      ensures watched == old(watched) && selected == old(selected) && userRating == old(userRating)
      ensures detailOpen == old(detailOpen) && pending == old(pending) - multiset{id}
      ensures movie == m && !detailLoading
      ensures old(star) != null ==> star == old(star)
      ensures old(star) == null ==>
        fresh(star) && star.rate == SeedFor(watched, selected).defaultRating && star.hoverRate == 0
      ensures old(RatingOnShow()) ==> RatingOnShow()
    {
      pending := pending - multiset{id};
      detailLoading := false;
      movie := m;
      if star == null {
        MountWidget();
      }
    }

    /**
     * `loadMovie` finishes for `id` with the answer `m`, where an answer for
     * a movie that is no longer selected is dropped.  When the catalogue
     * answers with the record asked for, this keeps the record on show that
     * of the selected movie.
     */
    method DetailLoadedCurrent(id: string, m: Movie)
      requires Valid() && id in pending
      modifies this
      ensures Valid()
      ensures watched == old(watched) && selected == old(selected) && userRating == old(userRating)
      ensures detailOpen == old(detailOpen) && pending == old(pending) - multiset{id}
      ensures id != selected ==> movie == old(movie) && detailLoading == old(detailLoading) && star == old(star)
      ensures id == selected ==> movie == m && !detailLoading
      ensures id == selected && old(star) == null ==>
        (fresh(star) && star.rate == SeedFor(watched, selected).defaultRating && star.hoverRate == 0)
      ensures id == selected && old(star) != null ==> star == old(star)
      ensures old(ShowsSelected()) && m.imdbID == id ==> ShowsSelected()
      ensures old(RatingOnShow()) ==> RatingOnShow()
    {
      if id == selected {
        DetailLoaded(id, m);
      } else {
        pending := pending - multiset{id};
      }
    }

    /** A click on star `k`; `onRate` is `setUserRating`. */
    method RateStar(k: nat)
      requires Valid() && star != null && 1 <= k <= StarsNumber
      modifies this, star
      ensures Valid() && ShowsSelected() == old(ShowsSelected())
      ensures old(RatingOnShow()) ==> RatingOnShow()
      ensures star == old(star) && star.hoverRate == old(star.hoverRate)
      ensures star.rate == if star.readOnly then old(star.rate) else k
      ensures userRating == if star.readOnly then old(userRating) else k
      ensures watched == old(watched) && selected == old(selected) && movie == old(movie)
      ensures detailLoading == old(detailLoading) && pending == old(pending) && detailOpen == old(detailOpen)
    {
      var reported := star.Rate(k);
      if reported.Some? {
        userRating := reported.value;
      }
    }

    /** The pointer enters star `k`. */
    method HoverStar(k: nat)
      requires Valid() && star != null && 1 <= k <= StarsNumber
      modifies star
      ensures Valid()
      ensures star.rate == old(star.rate)
      ensures star.hoverRate == if star.readOnly then old(star.hoverRate) else k
      ensures old(RatingOnShow()) ==> RatingOnShow()
    {
      star.HoverEnter(k);
    }

    /** The pointer leaves a star. */
    method LeaveStar()
      requires Valid() && star != null
      modifies star
      ensures Valid()
      ensures star.rate == old(star.rate)
      ensures star.hoverRate == if star.readOnly then old(star.hoverRate) else 0
      ensures old(RatingOnShow()) ==> RatingOnShow()
    {
      star.HoverLeave();
    }

    /**
     * `handleAddToWatched`: appends, with no check for duplicates.  Its one
     * caller, `addToWatched`, has cleared the selection just before.
     */
    method AddToWatched(e: Entry)
      requires Valid() && selected == ""
      modifies this
      ensures Valid() && ShowsSelected() && RatingOnShow()
      ensures watched == old(watched) + [e] && detailOpen == old(detailOpen)
      ensures selected == old(selected) && star == old(star) && pending == old(pending)
    {
      watched := watched + [e];
    }

    /**
     * `addToWatched`, the handler of the add button, which the detail view
     * renders only for a movie that is not watched yet.  The entry is the
     * record on show with the user's rating; the selection is cleared.
     */
    method AddFromDetail()
      requires Valid() && star != null && !IsWatched(watched, selected)
      modifies this
      ensures Valid() && ShowsSelected() && RatingOnShow()
      ensures selected == "" && RightPane(selected) == WatchedPane && star == null
      ensures watched == old(watched) + [WithUserRating(old(movie), old(userRating))]
      ensures detailOpen == old(detailOpen)
      ensures old(ShowsSelected()) && UniqueIds(old(watched)) ==> UniqueIds(watched)
      ensures old(RatingOnShow()) ==> watched[|watched| - 1].userRating == old(star.rate)
    {
      var entry := WithUserRating(movie, userRating);
      ghost var id := selected;
      SelectMovie("");
      AddToWatched(entry);
      if old(ShowsSelected()) && UniqueIds(old(watched)) {
        assert entry.imdbID == id;
        AppendFreshKeepsUnique(old(watched), entry);
      }
    }

    /**
     * `hadnleDeleteWatchedMovie`, reachable from the watched list, which the
     * open right-hand box shows when nothing is selected.
     */
    method DeleteWatched(id: string)
      requires Valid() && selected == "" && detailOpen
      modifies this
      ensures Valid() && ShowsSelected() && RatingOnShow()
      ensures watched == Delete(old(watched), id) && detailOpen == old(detailOpen)
      ensures !IsWatched(watched, id)
      ensures UniqueIds(old(watched)) ==> UniqueIds(watched)
      ensures selected == old(selected) && star == old(star)
    {
      watched := Delete(watched, id);
      DeleteUnwatches(old(watched), id);
      if UniqueIds(old(watched)) {
        DeleteKeepsUnique(old(watched), id);
      }
    }

    /**
     * The toggle of the right-hand box.  Closing it unmounts the detail view
     * while the selection stays: its cells and widget are discarded and the
     * answers still in flight are ignored.  Opening it with a movie selected
     * mounts the view afresh, which fetches the selected movie again.
     */
    method ToggleDetailBox()
      requires Valid()
      modifies this
      ensures Valid() && ShowsSelected() && RatingOnShow()
      ensures detailOpen == !old(detailOpen)
      ensures selected == old(selected) && watched == old(watched) && star == null
      ensures old(detailOpen) ==>
        movie == NoMovie && !detailLoading && userRating == 0 && pending == multiset{}
      ensures !old(detailOpen) && selected != "" ==>
        movie == NoMovie && detailLoading && userRating == 0 && pending == multiset{selected}
      ensures !old(detailOpen) && selected == "" ==> !Mounted() && !detailLoading
    {
      if detailOpen {
        movie, detailLoading, userRating, pending := NoMovie, false, 0, multiset{};
        detailOpen := false;
      } else {
        detailOpen := true;
        if selected != "" {
          pending := multiset{selected};
          detailLoading := true;
        }
      }
      star := null;
    }
  }

  /**
   * A collapsible box: `isOpen` starts true and the button flips it.  The
   * right-hand box's flag lives in `App.detailOpen`, since it decides
   * whether the detail view is mounted.
   */
  class Box {
    var isOpen: bool

    constructor ()
      ensures isOpen
    {
      isOpen := true;
    }

    method Toggle()
      modifies this
      ensures isOpen == !old(isOpen)
    {
      isOpen := !isOpen;
    }
  }
}
