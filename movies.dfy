/** The movie record the catalog returns; only its id matters to the home screen's logic. */
module Movies {

  /** A movie summary. The fields other than `id` are carried along, never inspected. */
  datatype Movie = Movie(
    id: int,
    title: string,
    posterPath: string,
    releaseDate: string,
    voteAverage: real)

  /** The ids of `ms`, in order (`ms.map(m => m.id)`). */
  function Ids(ms: seq<Movie>): seq<int> {
    seq(|ms|, i requires 0 <= i < |ms| => ms[i].id)
  }

  /** An id occurs in `Ids(ms)` exactly when some movie of `ms` carries it. */
  lemma IdsMembership(ms: seq<Movie>, x: int)
    ensures x in Ids(ms) <==> exists m :: m in ms && m.id == x
  {
    if x in Ids(ms) {
      var i :| 0 <= i < |ms| && Ids(ms)[i] == x;
      assert ms[i] in ms;
    }
    if m :| m in ms && m.id == x {
      var i :| 0 <= i < |ms| && ms[i] == m;
      assert Ids(ms)[i] == x;
    }
  }
}
