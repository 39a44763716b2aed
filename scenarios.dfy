/**
 * Typical event sequences of the application (search, select, rate, add),
 * proved from the contracts of the operations alone.
 */
module Scenarios {
  import opened Watched
  import opened AppShell
  import opened Movies

  /**
   * Select a movie that is not watched, let its details load, give it 8
   * stars and add it: the list gains exactly that entry and the view
   * returns to the watched list.  From no selection and with the record
   * asked for, `SelectMovieFresh` and `DetailLoadedCurrent` do exactly what
   * `SelectMovie` and `DetailLoaded` do, so the run holds as written too.
   */
  method RateAndAdd(app: App, m: Movie)
    requires app.Valid() && app.ShowsSelected() && app.selected == "" && app.detailOpen
    requires m.imdbID != "" && !IsWatched(app.watched, m.imdbID)
    modifies app
    ensures app.Valid() && app.ShowsSelected()
    ensures app.watched == old(app.watched) + [Entry(m.imdbID, m.Title, m.Runtime, m.imdbRating, 8)]
    ensures app.selected == "" && RightPane(app.selected) == WatchedPane
    ensures UniqueIds(old(app.watched)) ==> UniqueIds(app.watched)
  {
    app.SelectMovieFresh(m.imdbID);
    app.DetailLoadedCurrent(m.imdbID, m);
    app.RateStar(8);
    app.AddFromDetail();
  }

  /**
   * The detail loader as written: with movie A watched, the user opens A
   * and switches to B before A's details arrive; B's answer comes first,
   * A's last.  The view shows A's record under B's selection, offers the
   * add button, and adding stores A a second time.
   */
  method StaleDetailDuplicates() returns (app: App)
    ensures app.Valid()
    ensures |app.watched| == 2 && app.watched[0].imdbID == app.watched[1].imdbID
    ensures !UniqueIds(app.watched)
  {
    var a := Movie("tt0133093", "The Matrix", "136 min", "8.7");
    var b := Movie("tt0234215", "The Matrix Reloaded", "138 min", "7.2");
    app := new App([WithUserRating(a, 9)]);
    app.SelectMovie(a.imdbID);
    app.SelectMovie(b.imdbID);
    app.DetailLoaded(b.imdbID, b);
    app.DetailLoaded(a.imdbID, a);
    assert !IsWatched(app.watched, b.imdbID);
    app.AddFromDetail();
  }

  /** The same run with the loader that drops answers for a movie no longer selected. */
  method StaleDetailDropped() returns (app: App)
    ensures app.Valid() && app.ShowsSelected()
    ensures |app.watched| == 2 && UniqueIds(app.watched)
  {
    var a := Movie("tt0133093", "The Matrix", "136 min", "8.7");
    var b := Movie("tt0234215", "The Matrix Reloaded", "138 min", "7.2");
    app := new App([WithUserRating(a, 9)]);
    app.SelectMovieFresh(a.imdbID);
    app.SelectMovieFresh(b.imdbID);
    app.DetailLoadedCurrent(b.imdbID, b);
    app.DetailLoadedCurrent(a.imdbID, a);
    assert !IsWatched(app.watched, b.imdbID);
    app.AddFromDetail();
  }

  /**
   * The selection step as written: the user opens A, gives it 7 stars,
   * switches to B and adds B without touching its stars.  The widget shows
   * B at 0 stars, yet B is stored with A's rating 7.
   */
  method RatingCarriesOver() returns (app: App, shown: nat)
    ensures app.Valid()
    ensures shown == 0
    ensures |app.watched| == 1 && app.watched[0].userRating == 7
  {
    var a := Movie("tt0133093", "The Matrix", "136 min", "8.7");
    var b := Movie("tt0234215", "The Matrix Reloaded", "138 min", "7.2");
    app := new App([]);
    app.SelectMovie(a.imdbID);
    app.DetailLoaded(a.imdbID, a);
    app.RateStar(7);
    app.SelectMovie(b.imdbID);
    app.DetailLoaded(b.imdbID, b);
    shown := app.star.rate;
    app.AddFromDetail();
  }

  /** The same run with the selection step that resets the rating: B is stored with the 0 it shows. */
  method RatingResetOnSwitch() returns (app: App, shown: nat)
    ensures app.Valid() && app.RatingOnShow()
    ensures shown == 0
    ensures |app.watched| == 1 && app.watched[0].userRating == shown
  {
    var a := Movie("tt0133093", "The Matrix", "136 min", "8.7");
    var b := Movie("tt0234215", "The Matrix Reloaded", "138 min", "7.2");
    app := new App([]);
    app.SelectMovieFresh(a.imdbID);
    app.DetailLoadedCurrent(a.imdbID, a);
    app.RateStar(7);
    app.SelectMovieFresh(b.imdbID);
    app.DetailLoadedCurrent(b.imdbID, b);
    shown := app.star.rate;
    app.AddFromDetail();
  }

  lemma BatmanHasText()
    ensures HasText("batman")
  {
    assert !IsSpace("batman"[0]);
  }

  /** A search for "batman" that finds three movies shows exactly those, with no error. */
  method SearchFinds(items: seq<SearchItem>) returns (search: MovieSearch)
    requires |items| == 3
    ensures search.Valid()
    ensures search.movies == items && |search.movies| == 3
    ensures !search.isLoading && search.error == ""
  {
    search := new MovieSearch("");
    BatmanHasText();
    search.ChangeQuery("batman");
    search.Complete(search.effect, Found(items));
  }

  /** A query the catalogue does not know shows its message and keeps the earlier results. */
  method SearchNotFound(search: MovieSearch, q: string)
    requires search.Valid() && !search.tornDown
    requires HasText(q) && q != search.query
    modifies search
    ensures search.Valid()
    ensures search.error == "Movie not found!" && search.movies == old(search.movies)
    ensures !search.isLoading
  {
    search.ChangeQuery(q);
    search.Complete(search.effect, NotFound("Movie not found!"));
  }

  /**
   * Two queries typed in a row whose answers arrive in the opposite order:
   * the answer to the superseded query is never shown.
   */
  method SupersededSearchIgnored(search: MovieSearch, first: string, second: string,
                                 stale: seq<SearchItem>, current: seq<SearchItem>)
    requires search.Valid() && !search.tornDown
    requires HasText(first) && HasText(second) && first != search.query && second != first
    modifies search
    ensures search.Valid()
    ensures search.movies == current && search.error == "" && !search.isLoading
  {
    search.ChangeQuery(first);
    var earlier := search.effect;
    search.ChangeQuery(second);
    var later := search.effect;
    search.Complete(later, Found(current));
    search.Complete(earlier, Found(stale));
  }
}
