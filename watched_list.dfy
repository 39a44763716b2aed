/**
 * The watched list of src/App.js as values: its entries, the lookup the
 * detail view uses to decide "already watched", and deletion by id.
 */
module Watched {

  /** The detail record the catalogue returns for one movie (the fields the list keeps). */
  datatype Movie = Movie(imdbID: string, Title: string, Runtime: string, imdbRating: string)

  /** A watched entry: the detail record spread into a new object plus the user's rating. */
  datatype Entry = Entry(imdbID: string, Title: string, Runtime: string, imdbRating: string, userRating: nat)

  /** `{ ...movie, userRating }`: every field of the record, plus the user's rating. */
  function WithUserRating(movie: Movie, userRating: nat): (e: Entry)
    ensures e.imdbID == movie.imdbID && e.Title == movie.Title
    ensures e.Runtime == movie.Runtime && e.imdbRating == movie.imdbRating
    ensures e.userRating == userRating
  {
    Entry(movie.imdbID, movie.Title, movie.Runtime, movie.imdbRating, userRating)
  }

  /** No two entries share an imdbID. */
  ghost predicate UniqueIds(watched: seq<Entry>)
  {
    forall i, j :: 0 <= i < j < |watched| ==> watched[i].imdbID != watched[j].imdbID
  }

  ghost predicate Mentions(watched: seq<Entry>, id: string)
  {
    exists i :: 0 <= i < |watched| && watched[i].imdbID == id
  }

  /** `watched.findIndex(movie => movie.imdbID === id)`: the first index with that id, or -1. */
  function FindIndex(watched: seq<Entry>, id: string): (idx: int)
    ensures -1 <= idx < |watched|
    ensures idx >= 0 ==> watched[idx].imdbID == id
    ensures forall j :: 0 <= j < |watched| && (idx == -1 || j < idx) ==> watched[j].imdbID != id
  {
    if watched == [] then -1
    else if watched[0].imdbID == id then 0
    else
      var k := FindIndex(watched[1..], id);
      if k == -1 then -1 else k + 1
  }

  /** `idx !== -1`: the detail view's "already watched" test holds exactly when some entry has the id. */
  predicate IsWatched(watched: seq<Entry>, id: string): (w: bool)
    ensures w <==> Mentions(watched, id)
  {
    var idx := FindIndex(watched, id);
    if idx != -1 then
      assert watched[idx].imdbID == id;
      true
    else false
  }

  /** `watched.filter(movie => movie.imdbID !== id)` */
  function Delete(watched: seq<Entry>, id: string): (rest: seq<Entry>)
    ensures |rest| <= |watched|
    ensures forall e :: e in rest <==> e in watched && e.imdbID != id
  {
    if watched == [] then []
    else (if watched[0].imdbID != id then [watched[0]] else []) + Delete(watched[1..], id)
  }

  /** Deletion works piecewise, so the kept entries stay in their order. */
  lemma {:induction false} DeleteConcat(a: seq<Entry>, b: seq<Entry>, id: string)
    ensures Delete(a + b, id) == Delete(a, id) + Delete(b, id)
  {
    if a == [] {
      assert a + b == b;
    } else {
      assert (a + b)[1..] == a[1..] + b;
      DeleteConcat(a[1..], b, id);
    }
  }

  /** An entry is kept by itself exactly when its id differs. */
  lemma DeleteSingle(e: Entry, id: string)
    ensures Delete([e], id) == if e.imdbID != id then [e] else []
  {
    assert [e][1..] == [];
  }

  /** Deleting an id that is not present changes nothing. */
  lemma {:induction false} DeleteAbsent(watched: seq<Entry>, id: string)
    requires !Mentions(watched, id)
    ensures Delete(watched, id) == watched
  {
    if watched != [] {
      assert watched[0].imdbID != id;
      assert !Mentions(watched[1..], id) by {
        forall i | 0 <= i < |watched[1..]|
          ensures watched[1..][i].imdbID != id
        {
          assert watched[1..][i] == watched[i + 1];
        }
      }
      DeleteAbsent(watched[1..], id);
      assert [watched[0]] + watched[1..] == watched;
    }
  }

  /** Deleting twice is deleting once. */
  lemma DeleteIdempotent(watched: seq<Entry>, id: string)
    ensures Delete(Delete(watched, id), id) == Delete(watched, id)
  {
    var rest := Delete(watched, id);
    assert !Mentions(rest, id) by {
      forall i | 0 <= i < |rest|
        ensures rest[i].imdbID != id
      {
        assert rest[i] in rest;
      }
    }
    DeleteAbsent(rest, id);
  }

  /** Every entry with the deleted id is gone, so the id is no longer watched. */
  lemma DeleteUnwatches(watched: seq<Entry>, id: string)
    ensures !IsWatched(Delete(watched, id), id)
  {
  }

  /** Deleting keeps the ids unique. */
  lemma {:induction false} DeleteKeepsUnique(watched: seq<Entry>, id: string)
    requires UniqueIds(watched)
    ensures UniqueIds(Delete(watched, id))
  {
    if watched != [] {
      var tail := watched[1..];
      assert UniqueIds(tail) by {
        forall i, j | 0 <= i < j < |tail|
          ensures tail[i].imdbID != tail[j].imdbID
        {
          assert tail[i] == watched[i + 1] && tail[j] == watched[j + 1];
        }
      }
      DeleteKeepsUnique(tail, id);
      var rest := Delete(tail, id);
      if watched[0].imdbID != id {
        var all := [watched[0]] + rest;
        forall i, j | 0 <= i < j < |all|
          ensures all[i].imdbID != all[j].imdbID
        {
          if i == 0 {
            assert all[j] == rest[j - 1] && rest[j - 1] in rest;
            var k :| 0 <= k < |tail| && tail[k] == rest[j - 1];
            assert tail[k] == watched[k + 1];
          } else {
            assert all[i] == rest[i - 1] && all[j] == rest[j - 1];
          }
        }
      }
    }
  }

  /** Appending an entry whose id is not watched yet keeps the ids unique. */
  lemma AppendFreshKeepsUnique(watched: seq<Entry>, e: Entry)
    requires UniqueIds(watched) && !IsWatched(watched, e.imdbID)
    ensures UniqueIds(watched + [e])
  {
  }
}
