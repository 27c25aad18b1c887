/**
 * The catalog side of the home screen: which endpoint a fetch asks, how a page of results
 * is folded into the movie list, and when scrolling asks for the next page.
 */
module Pagination {
  import opened Wrappers
  import opened Movies

  /** The two catalog queries; URLs, the API key and the language parameter are left out. */
  datatype Endpoint = Trending | Search(query: string)

  /** One catalog request: an endpoint and the page number it asks for. */
  datatype Request = Request(endpoint: Endpoint, page: int)

  /** The outcome of a request: it failed (network or parse error), or it gave a body whose `results` may be missing. */
  datatype Response = Failed | Succeeded(results: Option<seq<Movie>>)

  /** A non-empty search term asks the search endpoint, an empty one the trending listing. */
  function EndpointFor(search: string): (e: Endpoint)
    ensures e.Search? <==> search != ""
    ensures e.Search? ==> e.query == search
  {
    if search != "" then Search(search) else Trending
  }

  /**
   * The movie list after a successful response for `pageNumber`: page 1 replaces the list
   * whatever it held, any other page is appended to it; missing results count as an empty page.
   */
  function Accumulate(prev: seq<Movie>, pageNumber: int, results: Option<seq<Movie>>): (r: seq<Movie>)
    ensures pageNumber == 1 ==> r == results.GetOr([])
    ensures pageNumber != 1 ==>
      |r| == |prev| + |results.GetOr([])| && r[..|prev|] == prev && r[|prev|..] == results.GetOr([])
  {
    var items := results.GetOr([]);
    if pageNumber == 1 then items else prev + items
  }

  /** The pages of a search session, one after the other. */
  function Flatten(pages: seq<seq<Movie>>): seq<Movie>
    decreases |pages|
  {
    if pages == [] then [] else Flatten(pages[..|pages| - 1]) + pages[|pages| - 1]
  }

  /** The movie list after the responses for pages 1, 2, ..., |pages| arrived in that order. */
  function Session(prev: seq<Movie>, pages: seq<seq<Movie>>): seq<Movie>
    decreases |pages|
  {
    if pages == [] then prev
    else Accumulate(Session(prev, pages[..|pages| - 1]), |pages|, Some(pages[|pages| - 1]))
  }

  /**
   * A session that fetches pages 1 to n in order ends with exactly those pages, in order:
   * nothing of the list it started from survives, and no page is lost or repeated.
   */
  lemma {:induction false} SessionConcatenatesPages(prev: seq<Movie>, pages: seq<seq<Movie>>)
    requires pages != []
    ensures Session(prev, pages) == Flatten(pages)
    decreases |pages|
  {
    var n := |pages|;
    if n == 1 {
      assert pages[..0] == [];
    } else {
      SessionConcatenatesPages(prev, pages[..n - 1]);
    }
  }

  /** How close to the bottom of the document (in pixels) a scroll must come to ask for more. */
  const ScrollThreshold: int := 200

  /** The scroll geometry read when the debounced scroll handler runs. */
  datatype Viewport = Viewport(innerHeight: int, scrollTop: int, offsetHeight: int)

  /** The bottom-proximity test of the scroll handler. */
  predicate NearBottom(v: Viewport) {
    v.innerHeight + v.scrollTop >= v.offsetHeight - ScrollThreshold
  }

  /** The page after one scroll event: one more exactly when the view is near the bottom. */
  function PageAfterScroll(page: int, v: Viewport): (r: int)
    ensures r == page || r == page + 1
    ensures r == page + 1 <==> NearBottom(v)
  {
    if NearBottom(v) then page + 1 else page
  }

  /** How many of the scroll events found the view near the bottom. */
  function NearBottomCount(events: seq<Viewport>): nat
    decreases |events|
  {
    if events == [] then 0
    else NearBottomCount(events[..|events| - 1]) + (if NearBottom(events[|events| - 1]) then 1 else 0)
  }

  /** The page after a series of scroll events: one more for each event near the bottom. */
  function PageAfterScrolls(page: int, events: seq<Viewport>): (r: int)
    ensures r == page + NearBottomCount(events)
    ensures page <= r <= page + |events|
    decreases |events|
  {
    if events == [] then page
    else PageAfterScroll(PageAfterScrolls(page, events[..|events| - 1]), events[|events| - 1])
  }

  /**
   * Scrolling never skips a page: every page number between the starting page and the page
   * reached is the current page after some prefix of the scroll events.
   */
  lemma {:induction false} ScrollVisitsEveryPage(page: int, events: seq<Viewport>, p: int)
    requires page <= p <= PageAfterScrolls(page, events)
    ensures exists k :: 0 <= k <= |events| && PageAfterScrolls(page, events[..k]) == p
    decreases |events|
  {
    var n := |events|;
    assert events[..n] == events;
    if n > 0 && p <= PageAfterScrolls(page, events[..n - 1]) {
      ScrollVisitsEveryPage(page, events[..n - 1], p);
      var k :| 0 <= k <= n - 1 && PageAfterScrolls(page, events[..n - 1][..k]) == p;
      assert events[..n - 1][..k] == events[..k];
    }
  }
}
