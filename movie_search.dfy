/**
 * The search hook of src/useMovies.js.  The network is replaced by
 * events: a change of the query (which runs the previous effect's cleanup
 * and then the new effect), the completion of an outstanding request with
 * one of three outcomes, and teardown of the consumer.  Each effect run
 * owns one abort controller; the model numbers them, so that "aborted"
 * means "belongs to an earlier effect run, or the consumer is gone".
 */
module Movies {

  /** White space and line terminators as String.prototype.trim strips them (ECMAScript 2015, section 21.1.3.25). */
  predicate IsSpace(c: char)
  {
    c in {'\t', '\n', '\U{B}', '\U{C}', '\r', ' ', '\U{A0}', '\U{1680}',
          '\U{2000}', '\U{2001}', '\U{2002}', '\U{2003}', '\U{2004}', '\U{2005}',
          '\U{2006}', '\U{2007}', '\U{2008}', '\U{2009}', '\U{200A}',
          '\U{2028}', '\U{2029}', '\U{202F}', '\U{205F}', '\U{3000}', '\U{FEFF}'}
  }

  predicate AllSpace(s: string)
  {
    forall i :: 0 <= i < |s| ==> IsSpace(s[i])
  }

  /** Drops the leading white space. */
  function TrimStart(s: string): (t: string)
    ensures |t| <= |s| && t == s[|s| - |t|..]
    ensures AllSpace(s[..|s| - |t|])
    ensures t != [] ==> !IsSpace(t[0])
  {
    if s != [] && IsSpace(s[0]) then TrimStart(s[1..]) else s
  }

  /** Drops the trailing white space. */
  function TrimEnd(s: string): (t: string)
    ensures t <= s
    ensures AllSpace(s[|t|..])
    ensures t != [] ==> !IsSpace(t[|t| - 1])
  {
    if s != [] && IsSpace(s[|s| - 1]) then TrimEnd(s[..|s| - 1]) else s
  }

  /**
   * `s.trim()`: the text without its leading white space, cut back to
   * before its trailing white space; it neither starts nor ends with white
   * space.
   */
  function Trim(s: string): (t: string)
    ensures t <= TrimStart(s) && AllSpace(TrimStart(s)[|t|..])
    ensures t != [] ==> !IsSpace(t[0]) && !IsSpace(t[|t| - 1])
  {
    var u := TrimStart(s);
    var t := TrimEnd(u);
    assert t != [] ==> t[0] == u[0];
    t
  }

  /** Trimming leaves nothing exactly when the text is all white space. */
  lemma TrimEmptyIff(s: string)
    ensures Trim(s) == "" <==> AllSpace(s)
  {
    var t := TrimStart(s);
    if Trim(s) == "" {
      assert t == [];
      assert s[..|s|] == s;
    }
  }

  /** `query.trim()` is truthy: the query asks for a search exactly when it is not all white space. */
  predicate HasText(query: string): (h: bool)
    ensures h <==> !AllSpace(query)
  {
    TrimEmptyIff(query);
    Trim(query) != ""
  }

  datatype SearchItem = SearchItem(imdbID: string, Title: string, Year: string, Poster: string)

  /** How an outstanding request ends. */
  datatype Outcome =
    | Found(search: seq<SearchItem>)     // Response is not "False": `data.Search`
    | NotFound(message: string)          // Response == "False": `data.Error`
    | Failed(name: string, message: string)  // fetch or .json() rejected

  const AbortError: string := "AbortError"

  class MovieSearch {
    var query: string
    var movies: seq<SearchItem>
    var isLoading: bool
    var error: string
    /** Number of the current effect run, and so of the only controller that may be live. */
    var effect: nat
    var tornDown: bool
    /** The controllers whose request has been sent and has not completed. */
    var inFlight: set<nat>

    /** `isLoading` is never true, and every request belongs to an effect run that has happened. */
    ghost predicate Valid()
      reads this
    {
      !isLoading && forall c :: c in inFlight ==> c <= effect
    }

    /**
     * The controller of effect run `c` has been aborted by a cleanup: every
     * earlier run's controller is, and the current one is once the consumer
     * is gone.
     */
    predicate Aborted(c: nat): (a: bool)
      reads this
      ensures c < effect ==> a
      ensures c >= effect ==> (a <==> tornDown)
    {
      c < effect || tornDown
    }

    /** Mount: the initial state, then the first effect run. */
    constructor (query: string)
      ensures Valid()
      ensures this.query == query && movies == [] && !isLoading && error == ""
      ensures effect == 0 && !tornDown
      ensures inFlight == if HasText(query) then {0} else {}
    {
      this.query := query;
      movies := [];
      isLoading := false;
      error := "";
      effect := 0;
      tornDown := false;
      inFlight := if HasText(query) then {0} else {};
    }

    /**
     * The cleanup closure's state updates: reset the loading flag and the
     * error.  Its `controller.abort()` is the caller's step that makes the
     * run's controller count as aborted (`effect` moves on, or `tornDown`).
     */
    method Cleanup()
      requires Valid()
      modifies this
      ensures Valid()
      ensures !isLoading && error == ""
      ensures query == old(query) && movies == old(movies) && inFlight == old(inFlight)
      ensures effect == old(effect) && tornDown == old(tornDown)
    {
      isLoading := false;
      error := "";
    }

    /**
     * The query changes.  An unchanged query does not re-run the effect;
     * otherwise the previous run is cleaned up (its controller aborted) and
     * a new run sends a request only when the trimmed query is not empty.
     */
    method ChangeQuery(q: string)
      requires Valid() && !tornDown
      modifies this
      ensures Valid() && !tornDown
      ensures query == q && movies == old(movies)
      ensures q == old(query) ==> effect == old(effect) && error == old(error) && inFlight == old(inFlight)
      ensures q != old(query) ==> effect == old(effect) + 1 && error == ""
      ensures q != old(query) ==> inFlight == old(inFlight) + (if HasText(q) then {effect} else {})
      ensures q != old(query) ==> forall c :: c in old(inFlight) ==> Aborted(c)
      ensures forall c :: old(Aborted(c)) ==> Aborted(c)
    {
      if q != query {
        Cleanup();
        effect := effect + 1;
        query := q;
        if HasText(q) {
          inFlight := inFlight + {effect};
        }
      }
    }

    /** The `.catch` handler. */
    method Reject(name: string, message: string)
      requires Valid()
      modifies this
      ensures Valid()
      ensures error == if name == AbortError then old(error) else message
      ensures query == old(query) && movies == old(movies) && inFlight == old(inFlight)
      ensures effect == old(effect) && tornDown == old(tornDown)
    {
      isLoading := false;
      if name != AbortError {
        error := message;
      }
    }

    /** What `loadMovies` and its `.catch` do once the request has ended with `outcome`. */
    method Settle(outcome: Outcome)
      requires Valid()
      modifies this
      ensures Valid()
      ensures query == old(query) && inFlight == old(inFlight)
      ensures effect == old(effect) && tornDown == old(tornDown)
      ensures outcome.Found? ==> movies == outcome.search && error == old(error)
      ensures outcome.NotFound? ==> movies == old(movies) && error == outcome.message
      ensures outcome.Failed? ==> movies == old(movies)
      ensures outcome.Failed? ==> error == if outcome.name == AbortError then old(error) else outcome.message
    {
      match outcome
      case Found(search) =>
        isLoading := false;
        movies := search;
      case NotFound(message) =>
        isLoading := false;
        Reject("Error", message);
      case Failed(name, message) =>
        Reject(name, message);
    }

    /**
     * The request of effect run `c` ends.  A request whose controller was
     * aborted rejects with an AbortError whatever the server did, so it
     * commits nothing.
     */
    method Complete(c: nat, outcome: Outcome)
      requires Valid() && c in inFlight
      modifies this
      ensures Valid()
      ensures inFlight == old(inFlight) - {c}
      ensures query == old(query) && effect == old(effect) && tornDown == old(tornDown)
      ensures Aborted(c) ==> movies == old(movies) && error == old(error)
      ensures movies != old(movies) || error != old(error) ==> c == effect && !tornDown
      ensures !Aborted(c) && outcome.Found? ==> movies == outcome.search && error == old(error)
      ensures !Aborted(c) && outcome.NotFound? ==> movies == old(movies) && error == outcome.message
      ensures !Aborted(c) && outcome.Failed? ==> movies == old(movies)
      ensures !Aborted(c) && outcome.Failed? ==>
                error == if outcome.name == AbortError then old(error) else outcome.message
    {
      inFlight := inFlight - {c};
      if Aborted(c) {
        Settle(Failed(AbortError, "The operation was aborted."));
      } else {
        Settle(outcome);
      }
    }

    /** The consumer unmounts: the last cleanup runs. */
    method Teardown()
      requires Valid() && !tornDown
      modifies this
      ensures Valid() && tornDown
      ensures !isLoading && error == ""
      ensures query == old(query) && movies == old(movies) && inFlight == old(inFlight) && effect == old(effect)
      ensures forall c :: c in inFlight ==> Aborted(c)
      ensures forall c :: old(Aborted(c)) ==> Aborted(c)
    {
      Cleanup();
      tornDown := true;
    }
  }
}
