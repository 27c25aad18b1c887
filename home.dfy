/**
 * The state of the home screen component and the handlers that update it: fetching a page,
 * receiving its response, the debounced search and scroll handlers, and the heart button.
 * Each handler is one atomic step of the single-threaded event loop.
 */
module Home {
  import opened Wrappers
  import opened Movies
  import opened Favorites
  import opened Persistence
  import opened Pagination

  class HomeScreen {
    /** The accumulated movie list shown in the grid. */
    var movies: seq<Movie>
    /** The ids of the favourite movies, in the order they were added. */
    var favorites: seq<int>
    /** The catalog page most recently asked for by scrolling or searching. */
    var page: int
    /** Whether a fetch has started and not finished. */
    var loading: bool
    /** The text of the search box. */
    var searchTerm: string
    /** The value last written under the "favorites" storage key. */
    var saved: seq<Movie>

    /** The favourites read from storage when the screen mounted. */
    ghost var loaded: seq<int>
    /** The ids whose heart was pressed since then, in order. */
    ghost var toggled: seq<int>

    /**
     * The page number is positive, the save effect has written the favourites among the
     * current movies, and the favourites are the loaded ones with every press applied.
     */
    ghost predicate Valid()
      reads this
    {
      page >= 1 &&
      saved == FavoriteMovies(movies, favorites) &&
      favorites == ApplyToggles(loaded, toggled)
    }

    /**
     * Mounting, before the fetch effect first runs (`FetchCurrentPage`, which the same
     * mount triggers): the list is empty, the page is 1, the favourites are read from the
     * stored entry (`stored` is None when the key is absent or empty), and the save effect,
     * running over the still-empty list, writes an empty list.
     */
    constructor (stored: Option<seq<Movie>>)
      ensures Valid()
      ensures movies == [] && page == 1 && !loading && searchTerm == ""
      ensures favorites == LoadFavorites(stored) && loaded == favorites && toggled == []
      ensures saved == []
    {
      movies := [];
      page := 1;
      loading := false;
      searchTerm := "";
      favorites := LoadFavorites(stored);
      loaded := favorites;
      toggled := [];
      saved := [];
    }

    /**
     * The first half of `fetchMovies`: mark the screen as loading and build the request
     * for `pageNumber`, against the search endpoint when `search` is non-empty.
     */
    method StartFetch(pageNumber: int, search: string) returns (req: Request)
      requires Valid()
      modifies this`loading
      ensures Valid()
      ensures loading
      ensures req.page == pageNumber && req.endpoint == EndpointFor(search)
    {
      loading := true;
      req := Request(EndpointFor(search), pageNumber);
    }

    /**
     * The second half of `fetchMovies`, when the response for `pageNumber` arrives: on
     * success the page replaces (page 1) or extends (any other page) the list, on failure
     * the list is kept; either way loading ends, and the save effect rewrites the favourites.
     */
    method CompleteFetch(pageNumber: int, response: Response)
      requires Valid()
      modifies this`movies, this`loading, this`saved
      ensures Valid()
      ensures !loading
      ensures response.Failed? ==> movies == old(movies)
      ensures response.Succeeded? ==> movies == Accumulate(old(movies), pageNumber, response.results)
      ensures response.Succeeded? && pageNumber != 1 ==> old(movies) <= movies
      ensures saved == FavoriteMovies(movies, favorites)
    {
      if response.Succeeded? {
        movies := Accumulate(movies, pageNumber, response.results);
        saved := FavoriteMovies(movies, favorites);
      }
      loading := false;
    }

    /** Typing in the search box updates the term (the debounced search runs separately). */
    method ChangeSearchTerm(value: string)
      requires Valid()
      modifies this`searchTerm
      ensures Valid()
      ensures searchTerm == value
    {
      searchTerm := value;
    }

    /**
     * The fetch effect. The component runs it on mount and after every change of the page
     * or of the search term; calling it at those points is left to the caller.
     */
    method FetchCurrentPage() returns (req: Request)
      requires Valid()
      modifies this`loading
      ensures Valid()
      ensures loading
      ensures req.page == page && req.endpoint == EndpointFor(searchTerm)
    {
      req := StartFetch(page, searchTerm);
    }

    /** The debounced search: back to page 1, and fetch page 1 for `value`. */
    method Search(value: string) returns (req: Request)
      requires Valid()
      modifies this`page, this`loading
      ensures Valid()
      ensures page == 1 && loading
      ensures req.page == 1 && req.endpoint == EndpointFor(value)
    {
      page := 1;
      req := StartFetch(1, value);
    }

    /**
     * The debounced scroll handler: the page goes up by exactly one when the view is within
     * the threshold of the bottom, and stays as it was otherwise.
     */
    method Scroll(v: Viewport) returns (triggered: bool)
      requires Valid()
      modifies this`page
      ensures Valid()
      ensures triggered <==> NearBottom(v)
      ensures page == (if triggered then old(page) + 1 else old(page))
    {
      triggered := NearBottom(v);
      if triggered {
        page := page + 1;
      }
    }

    /**
     * The heart button of movie `movieId`: the id leaves the favourites if it was one and
     * is appended otherwise, and the save effect rewrites the favourites.
     */
    method ToggleFavorite(movieId: int)
      requires Valid()
      modifies this`favorites, this`saved, this`toggled
      ensures Valid()
      ensures favorites == Toggle(old(favorites), movieId)
      ensures toggled == old(toggled) + [movieId]
      ensures saved == FavoriteMovies(movies, favorites)
    {
      assert (toggled + [movieId])[..|toggled|] == toggled;
      favorites := Toggle(favorites, movieId);
      toggled := toggled + [movieId];
      saved := FavoriteMovies(movies, favorites);
    }

    /**
     * Whether movie `movieId` is shown with a filled heart: exactly when it was a stored
     * favourite and its heart was pressed an even number of times since mounting, or it was
     * not and its heart was pressed an odd number of times.
     */
    method IsFavorite(movieId: int) returns (b: bool)
      requires Valid()
      ensures b <==> (movieId in loaded <==> multiset(toggled)[movieId] % 2 == 0)
    {
      b := movieId in favorites;
      ToggleParity(loaded, toggled, movieId);
    }
  }

  /**
   * Mounting with nothing stored, receiving trending page 1, and then scrolling twice to the
   * bottom, each scroll fetching a further (empty) trending page.
   */
  method ScrollToThirdPage(a: Movie, v: Viewport) returns (screen: HomeScreen)
    requires NearBottom(v)
    ensures fresh(screen) && screen.Valid()
    ensures screen.searchTerm == "" && screen.page == 3 && screen.movies == [a]
  {
    screen := new HomeScreen(None);
    assert screen.favorites == [] && screen.movies == [];
    var req := screen.FetchCurrentPage();
    screen.CompleteFetch(req.page, Succeeded(Some([a])));
    assert screen.movies == [a];
    var near := screen.Scroll(v);
    req := screen.FetchCurrentPage();
    assert req.page == 2 && Accumulate([a], 2, Some([])) == [a];
    screen.CompleteFetch(req.page, Succeeded(Some([])));
    near := screen.Scroll(v);
    req := screen.FetchCurrentPage();
    assert req.page == 3 && Accumulate([a], 3, Some([])) == [a];
    screen.CompleteFetch(req.page, Succeeded(Some([])));
  }

  /**
   * A keystroke fetches at once, without the debounce, the CURRENT page for the new term.
   * After scrolling to page 3 of the trending list, typing a term appends page 3 of the
   * search results to the trending movies, even when every response arrives in order.
   */
  method KeystrokeAppendsToPreviousList(a: Movie, b: Movie, term: string, v: Viewport)
    returns (screen: HomeScreen, req: Request)
    requires term != "" && NearBottom(v)
    ensures req == Request(Search(term), 3)
    ensures screen.searchTerm == term && screen.page == 3
    ensures screen.movies == [a, b]
  {
    screen := ScrollToThirdPage(a, v);
    screen.ChangeSearchTerm(term);
    req := screen.FetchCurrentPage();
    assert Accumulate([a], 3, Some([b])) == [a, b];
    screen.CompleteFetch(req.page, Succeeded(Some([b])));
  }
}
