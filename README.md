# MovieNest home screen: list, page and favourites state

MovieNest is a browser client for a movie catalog. Its home screen lists trending movies,
or movies that match a search term. It loads further pages as the user scrolls to the
bottom. It lets the user mark movies as favourites with a heart button. The favourite
movies are kept in browser storage under the key `favorites`.

This project models the state logic of that screen (`src/app/page.tsx`) in Dafny and proves
properties of it:

- `Favorites` is the heart button's list transform. Toggling an id removes every
  occurrence of it, or appends it at the end when it is absent. The module proves the
  membership, order, no-duplicates and parity properties of that transform.
- `Persistence` covers what the save effect writes: the current movies whose id is a
  favourite, in list order. It also covers how the mount effect reads the ids back.
- `Pagination` covers three things. It chooses the endpoint: search for a non-empty term,
  trending otherwise. It folds a page of results into the list: page 1 replaces it, later
  pages are appended, and missing `results` count as an empty page. It also covers the
  bottom-of-page scroll test that asks for the next page.
- `Home.HomeScreen` is the component's state: `movies`, `favorites`, `page`, `loading`,
  `searchTerm` and the last value written to storage. The class has one method per handler,
  and its invariant `Valid()` ties the stored value and the favourites to the functions
  above.
- `Movies` holds the movie record. Only its `id` is inspected. `Wrappers` holds `Option`.

`fetchMovies` is `async`, and other events can run while it awaits the response. It is
therefore modelled as two steps: `StartFetch` (sets `loading` and builds the request) and
`CompleteFetch` (takes the response as a parameter). The network is not modelled: a
response is either `Failed` or `Succeeded` with optional `results`.

Some things the model makes visible about the code as written:

- The save effect writes only the favourites that are in the current movie list. The
  mount effect reads back only those ids. So a favourite whose movie is not on the loaded
  pages is lost the next time the screen mounts (`SavedFavoritesRoundTrip`). Storing a set
  and reading the same set back is not what the code does.
- When the screen mounts, the save effect runs over the still-empty movie list and writes an
  empty list (`HomeScreen.constructor`).
- Typing in the search box changes the search term, and the fetch effect then runs at once,
  without the debounce, for the CURRENT page and the new term. After scrolling to page 3 of
  the trending list, typing a term appends page 3 of the search results to the trending
  movies, even when every response arrives in order (`KeystrokeAppendsToPreviousList`). The
  debounced search replaces the list with page 1 only later.
- Reading storage at `src/app/page.tsx:27` has no error handling. Malformed stored data
  therefore throws; it is not treated as "no favourites". The model only takes an absent or
  empty entry (`None`) or a list of movies.

## Model

| member | source | states |
|---|---|---|
| Movies.IdsMembership | src/app/page.tsx:27-29 | an id is among the ids of a movie list exactly when some movie of the list carries it |
| Favorites.Remove | src/app/page.tsx:97 | the filtered list has no occurrence of the id, its multiset is the input's with that id's count set to zero, its length drops by that count, and every other id keeps its membership |
| Favorites.RemoveDistributes | src/app/page.tsx:97 | filtering a concatenation is the concatenation of the filtered parts, so the kept ids stay in their original order |
| Favorites.RemoveAbsent | src/app/page.tsx:97 | filtering out an id that does not occur returns the list unchanged |
| Favorites.RemoveKeepsOrder | src/app/page.tsx:97 | every kept id stays after the kept ids that preceded it and before those that followed it |
| Favorites.RemoveKeepsNoDuplicates | src/app/page.tsx:97 | filtering a list without duplicates gives a list without duplicates |
| Favorites.Toggle | src/app/page.tsx:94-100 | afterwards the id is a member iff it was not before, and every other id keeps its membership; an absent id ends up appended as the last element after the unchanged old list; a present id has all its occurrences removed (the filter `Remove`, so the kept ids keep their order) and the list gets shorter |
| Favorites.ToggleKeepsNoDuplicates | src/app/page.tsx:95-99 | toggling a list without duplicates gives a list without duplicates |
| Favorites.ToggleTwiceRestores | src/app/page.tsx:94-100 | toggling an absent id twice gives back exactly the original list |
| Favorites.ToggleParity | src/app/page.tsx:94-100 | after any sequence of toggles, an id is a favourite iff its initial membership and the parity of the number of times it was toggled say so (absent + odd, or present + even); toggles of other ids do not matter |
| Favorites.RepeatedToggles | src/app/page.tsx:94-100 | starting from an absent id, 2k toggles of it give back exactly the original list, and 2k+1 give the original list with the id appended |
| Persistence.FavoriteMovies | src/app/page.tsx:36-38 | a movie is written iff it is in the current list and its id is a favourite, and no more movies are written than are listed |
| Persistence.FavoriteMoviesDistributes | src/app/page.tsx:36-40 | the written list follows the order of the movie list; appending a page to the movies appends only that page's favourites to what is written |
| Persistence.FavoriteMoviesDependsOnListedIds | src/app/page.tsx:36-38 | two favourites lists that agree on the ids of the listed movies write the same value, so favourite ids with no movie in the list are never written |
| Persistence.LoadFavorites | src/app/page.tsx:25-31 | an absent or empty entry leaves the favourites empty; a stored list gives one id per stored movie, and an id is loaded iff some stored movie carries it |
| Persistence.SavedFavoritesRoundTrip | src/app/page.tsx:25-39 | reading back what was written yields an id iff it was a favourite and some movie of the list at write time carried it |
| Pagination.EndpointFor | src/app/page.tsx:46-48 | the search endpoint, with the term as its query, is chosen iff the term is non-empty; otherwise trending |
| Pagination.Accumulate | src/app/page.tsx:53-57 | on page 1 the list becomes the returned results (or empty when missing) whatever it held before; on any other page the old list is a prefix of the new one and the rest is exactly the returned results (or nothing) |
| Pagination.SessionConcatenatesPages | src/app/page.tsx:53-57 | fetching pages 1..n in order leaves exactly the concatenation of those pages, in order, with nothing of the earlier list left |
| Pagination.PageAfterScroll | src/app/page.tsx:75-80 | one scroll event moves the page to page + 1 iff innerHeight + scrollTop >= offsetHeight - 200, and leaves it unchanged otherwise |
| Pagination.PageAfterScrolls | src/app/page.tsx:73-83 | after a series of scroll events the page has grown by exactly the number of events that found the view near the bottom, hence by at least 0 and at most the number of events |
| Pagination.ScrollVisitsEveryPage | src/app/page.tsx:73-83 | scrolling never skips a page: every page number between the start and the end is the current page after some prefix of the events |
| Home.HomeScreen.constructor | src/app/page.tsx:17-40 | on mount, before the fetch effect first runs: empty list, page 1, not loading, empty search term, favourites read from the stored entry, and an empty list written back |
| Home.HomeScreen.StartFetch | src/app/page.tsx:42-48 | loading becomes true and the request asks for the given page at the endpoint chosen by the search term; nothing else changes |
| Home.HomeScreen.CompleteFetch | src/app/page.tsx:50-62 | a failure keeps the list; a success replaces it (page 1) or extends it with the old list as a prefix (other pages); loading ends false in every outcome; the stored favourites are rewritten from the new list |
| Home.HomeScreen.ChangeSearchTerm | src/app/page.tsx:139-142 | the search term becomes the typed text; nothing else changes |
| Home.HomeScreen.FetchCurrentPage | src/app/page.tsx:85-87 | the fetch effect asks for the current page with the current search term and sets loading |
| Home.HomeScreen.Search | src/app/page.tsx:65-71 | the debounced search resets the page to 1 and fetches page 1 for the term |
| Home.HomeScreen.Scroll | src/app/page.tsx:73-83 | the debounced scroll handler sets the page to exactly page + 1 when the view is near the bottom, leaves it unchanged otherwise, and keeps the page positive |
| Home.HomeScreen.ToggleFavorite | src/app/page.tsx:94-100 | the favourites become the toggled list, the press is appended to the history that the invariant replays from the loaded favourites, and the stored favourites are rewritten |
| Home.HomeScreen.IsFavorite | src/app/page.tsx:194-198 | a movie shows a filled heart iff it was a stored favourite and its heart was pressed an even number of times since mount, or it was not and its heart was pressed an odd number of times |
| Home.ScrollToThirdPage | src/app/page.tsx:73-87 | mounting with nothing stored, receiving trending page 1 and scrolling to the bottom twice (each scroll fetching an empty page) leaves page 3 with the first page's movies |
| Home.KeystrokeAppendsToPreviousList | src/app/page.tsx:85-87 | typing a term while on page 3 fetches page 3 of the search endpoint at once, and its results are appended to the trending movies |

## Left out

- Rendering: the grid, the skeleton and empty states, links and images (`src/app/page.tsx:102-210`). This is presentation with no logic. Only the heart's favourite test (`favorites.includes(movie.id)`) is modelled, as `IsFavorite`.
- Network I/O: `fetch`, `response.json()`, the URLs and the API key (`src/app/page.tsx:44-52`). These are foreign calls. Only their outcome is modelled: a failure, or a success with optional `results`. A `results` value that is present but not a list is not modelled.
- Storage plumbing: `localStorage` and `JSON.parse`/`JSON.stringify`. The stored entry is a parameter of the constructor, and the written value is the `saved` field. A malformed entry, which throws in the source, is not modelled.
- Home.HomeScreen.FetchCurrentPage: the component runs this fetch effect on mount and after every change of `page` or `searchTerm` (`src/app/page.tsx:85-87`). The class does not enforce that: calling it at those points is left to the caller. So the state right after the constructor (not loading) is one the mounted component passes through but does not rest in.
- Debounce timing (500 ms for search, 200 ms for scroll) and the registration of the scroll listener (`src/app/page.tsx:65-92`). These are timer and event plumbing. The debounced callbacks are plain method calls.
- Overlapping requests: there is no cancellation, so a late response can overwrite a newer one. The model accepts any interleaving of `StartFetch`/`CompleteFetch` calls, but proves nothing about which response should win.
- Pagination.Viewport: the browser reports the scroll geometry as floating-point numbers. The model uses integers.
- `vote_average.toFixed(1)`: floating-point formatting for display. `voteAverage` is carried as a `real` and never inspected.
- The favourites page `src/app/favorite/page.tsx` and the movie detail page `src/app/movie/[id]/page.tsx` are not part of this model. They only read, log and write storage, or render a single fetched record.
- `src/app/layout.tsx` and `tailwind.config.js` are not part of this model. They are a layout shell and build configuration.
