/**
 * What the home screen writes under the "favorites" storage key, and what it reads back
 * from there when it mounts.
 */
module Persistence {
  import opened Wrappers
  import opened Movies

  /**
   * The movies written to storage: those of the current list whose id is a favourite,
   * in list order (`movies.filter(m => favorites.includes(m.id))`).
   */
  function FavoriteMovies(movies: seq<Movie>, favorites: seq<int>): (r: seq<Movie>)
    ensures forall m :: m in r <==> m in movies && m.id in favorites
    ensures |r| <= |movies|
    decreases |movies|
  {
    if movies == [] then []
    else
      assert movies == [movies[0]] + movies[1..];
      (if movies[0].id in favorites then [movies[0]] else []) + FavoriteMovies(movies[1..], favorites)
  }

  /**
   * The projection commutes with concatenation: it keeps the order of `movies`, and when a
   * further page is appended only that page's favourites are appended to what is written.
   */
  lemma {:induction false} FavoriteMoviesDistributes(a: seq<Movie>, b: seq<Movie>, favorites: seq<int>)
    ensures FavoriteMovies(a + b, favorites) == FavoriteMovies(a, favorites) + FavoriteMovies(b, favorites)
    decreases |a|
  {
    if a == [] {
      assert a + b == b;
    } else {
      assert (a + b)[0] == a[0];
      assert (a + b)[1..] == a[1..] + b;
      FavoriteMoviesDistributes(a[1..], b, favorites);
    }
  }

  /**
   * What is written depends on the favourites only through the membership of the ids of
   * the listed movies: favourite ids with no movie in the list are never written.
   */
  lemma {:induction false} FavoriteMoviesDependsOnListedIds(movies: seq<Movie>, f1: seq<int>, f2: seq<int>)
    requires forall m :: m in movies ==> (m.id in f1 <==> m.id in f2)
    ensures FavoriteMovies(movies, f1) == FavoriteMovies(movies, f2)
    decreases |movies|
  {
    if movies != [] {
      assert movies[0] in movies;
      assert forall m :: m in movies[1..] ==> m in movies;
      FavoriteMoviesDependsOnListedIds(movies[1..], f1, f2);
    }
  }

  /**
   * The favourites read back when the screen mounts: the ids of the stored movies, in
   * order, when the key holds a list. An absent or empty entry leaves the favourites at
   * their initial value, the empty list.
   */
  function LoadFavorites(stored: Option<seq<Movie>>): (r: seq<int>)
    ensures stored.None? ==> r == []
    ensures stored.Some? ==> |r| == |stored.value|
    ensures stored.Some? ==> forall x :: x in r <==> exists m :: m in stored.value && m.id == x
  {
    match stored
    case Some(saved) =>
      assert forall x :: x in Ids(saved) <==> exists m :: m in saved && m.id == x by {
        forall x ensures x in Ids(saved) <==> exists m :: m in saved && m.id == x {
          IdsMembership(saved, x);
        }
      }
      Ids(saved)
    case None => []
  }

  /**
   * Writing and then reading back: an id is reloaded as a favourite exactly when it was a
   * favourite AND some movie of the list at the time of writing carried it.
   */
  lemma SavedFavoritesRoundTrip(movies: seq<Movie>, favorites: seq<int>, x: int)
    ensures x in LoadFavorites(Some(FavoriteMovies(movies, favorites))) <==>
            x in favorites && x in Ids(movies)
  {
    var written := FavoriteMovies(movies, favorites);
    IdsMembership(written, x);
    IdsMembership(movies, x);
  }
}
