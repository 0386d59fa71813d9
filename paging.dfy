/** Infinite paging over an RSS feed: the whole feed is fetched once and
    cached, and each page is a window of `size` entries cut from it. */
module Paging {
  import opened Wrappers
  import opened Platform
  import opened Models
  import opened Outcomes
  import opened Feeds

  /** One page: its entries, the length of the whole feed, and the number of
      the following page when there is one. */
  datatype PagedFeed = PagedFeed(total: int, next: Option<int>, entries: seq<Entry>)

  /** The variables of one page query: `{ page }`. */
  datatype PageVariables = PageVariables(page: int)

  /** `Array.prototype.slice`'s reading of an index: a negative one counts
      from the end, and both are clipped to `0..length`. */
  function SliceIndex(index: int, length: nat): (r: nat)
    ensures r <= length
    ensures 0 <= index ==> r == if index < length then index else length
  {
    if index < 0 then (if length + index < 0 then 0 else length + index)
    else if index < length then index
    else length
  }

  /** `entries.slice(start, end)`. */
  function Slice<T>(s: seq<T>, start: int, end: int): (r: seq<T>)
    ensures 0 <= start <= end <= |s| ==> r == s[start..end]
  {
    var from, to := SliceIndex(start, |s|), SliceIndex(end, |s|);
    if from < to then s[from..to] else []
  }

  function Min(a: int, b: int): int {
    if a < b then a else b
  }

  /** `transform(feed, { page })`: entries `page*size .. page*size+size` of
      the feed, clipped to its end; the feed's length as the total; and the
      following page number exactly when entries remain past this window. */
  function Transform(feed: Feed, page: int, size: int): (r: PagedFeed)
    ensures r.total == |feed.entries|
    ensures r.next.Some? <==> page * size + size < |feed.entries|
    ensures r.next.Some? ==> r.next.value == page + 1
    ensures 0 <= page && 0 <= size ==>
              r.entries == feed.entries[Min(page * size, |feed.entries|)..Min(page * size + size, |feed.entries|)]
  {
    var start := page * size;
    var end := start + size;
    assert 0 <= page && 0 <= size ==> 0 <= start;
    PagedFeed(
      entries := Slice(feed.entries, start, end),
      total := |feed.entries|,
      next := if end < |feed.entries| then Some(page + 1) else None)
  }

  /** `next({ last })`: the following page's variables, or none to stop. */
  function Next(last: PagedFeed): (r: Option<PageVariables>)
    ensures r.Some? <==> last.next.Some?
    ensures r.Some? ==> r.value.page == last.next.value
  {
    if last.next.Some? then Some(PageVariables(last.next.value)) else None
  }

  /** The entries of page `page` and of every page reached from it by
      following `next`. */
  function Pages(feed: Feed, size: int, page: nat): seq<Entry>
    requires 0 < size
    decreases |feed.entries| - page * size
  {
    var paged := Transform(feed, page, size);
    match Next(paged)
    case None => paged.entries
    case Some(variables) =>
      assert (page + 1) * size == page * size + size;
      paged.entries + Pages(feed, size, variables.page)
  }

  /** Following `next` from any page yields the rest of the feed from that
      page's first entry on. */
  lemma {:induction false} PagesFrom(feed: Feed, size: int, page: nat)
    requires 0 < size
    ensures Pages(feed, size, page) == feed.entries[Min(page * size, |feed.entries|)..]
    decreases |feed.entries| - page * size
  {
    var n := |feed.entries|;
    var paged := Transform(feed, page, size);
    assert 0 <= page * size;
    if paged.next.Some? {
      assert (page + 1) * size == page * size + size;
      PagesFrom(feed, size, page + 1);
      assert feed.entries[page * size..] == feed.entries[page * size..page * size + size] + feed.entries[page * size + size..];
    }
  }

  /** Starting at page 0 and following `next` until it stops visits every
      entry of the feed exactly once, in order. */
  lemma PagesCoverFeed(feed: Feed, size: int)
    requires 0 < size
    ensures Pages(feed, size, 0) == feed.entries
  {
    PagesFrom(feed, size, 0);
  }

  /** The page fetcher of the infinite builder, with the feed it caches
      across pages. */
  class PageFetcher {
    /** `cached`: the feed, once one fetch has succeeded. */
    var cached: Option<Feed>
    /** How many times the fetcher has gone to the network. */
    ghost var loads: nat

    /** `unify`'s `source`, applied to the page variables. */
    const source: int -> Source<Feed>
    /** `rss.get(endpoint)`: the feed outcome, or what it threw. */
    const executor: string -> Result<Outcome<Feed>, Thrown>
    const phrase: int -> string
    const explain: Fault -> string

    constructor(source: int -> Source<Feed>, executor: string -> Result<Outcome<Feed>, Thrown>,
                phrase: int -> string, explain: Fault -> string)
      ensures cached == None && loads == 0
      ensures this.source == source && this.executor == executor
      ensures this.phrase == phrase && this.explain == explain
    {
      cached := None;
      loads := 0;
      this.source := source;
      this.executor := executor;
      this.phrase := phrase;
      this.explain := explain;
    }

    /** What `unify` yields for page `page`. */
    function Load(page: int): Outcome<Feed> {
      Unify(source(page), executor, None, phrase, explain)
    }

    /** The fetcher for page `page`: the cached feed when there is one, with
        no load; otherwise one load, whose failure is returned as it is and
        whose success is cached and returned as a 200. */
    method Fetch(page: int) returns (r: Outcome<Feed>)
      modifies this
      ensures (r, cached) == Serve(old(cached), Load(page))
      ensures loads == if old(cached).None? then old(loads) + 1 else old(loads)
    {
      if cached.None? {
        var response := Unify(source(page), executor, None, phrase, explain);
        loads := loads + 1;
        if response.Failed? {
          return response;
        }
        cached := Some(response.data);
      }
      r := Successify(cached.value);
    }
  }

  /** One fetch, given the cache before it and what a load would yield: the
      outcome and the cache after it. */
  function Serve(cached: Option<Feed>, load: Outcome<Feed>): (r: (Outcome<Feed>, Option<Feed>))
    ensures cached.Some? ==> r == (Success(200, cached.value), cached)
    ensures cached.None? && load.Failed? ==> r == (load, None)
    ensures cached.None? && load.Success? ==> r == (Success(200, load.data), Some(load.data))
  {
    if cached.Some? then (Successify(cached.value), cached)
    else if load.Failed? then (load, None)
    else (Successify(load.data), Some(load.data))
  }

  /** The outcomes of fetching `pages` in turn, starting from `cached`. */
  function Session(cached: Option<Feed>, pages: seq<int>, load: int -> Outcome<Feed>): (r: seq<Outcome<Feed>>)
    ensures |r| == |pages|
    decreases |pages|
  {
    if pages == [] then []
    else
      var served := Serve(cached, load(pages[0]));
      [served.0] + Session(served.1, pages[1..], load)
  }

  /** A fetcher that holds a feed serves it for every page, whatever a load
      would yield. */
  lemma {:induction false} CachedSessionServesFeed(feed: Feed, pages: seq<int>, load: int -> Outcome<Feed>)
    ensures forall k :: 0 <= k < |pages| ==> Session(Some(feed), pages, load)[k] == Success(200, feed)
  {
    if pages != [] {
      CachedSessionServesFeed(feed, pages[1..], load);
    }
  }

  /** Once a fetch succeeds, every later fetch returns the very same outcome:
      every page after it is cut from the same feed. Before it, each fetch
      returned the load's failure as it was. */
  lemma {:induction false} SessionSticks(cached: Option<Feed>, pages: seq<int>, load: int -> Outcome<Feed>, i: nat, j: nat)
    requires i <= j < |pages|
    requires Session(cached, pages, load)[i].Success?
    ensures Session(cached, pages, load)[j] == Session(cached, pages, load)[i]
    decreases |pages|
  {
    var served := Serve(cached, load(pages[0]));
    if i == 0 {
      if 0 < j {
        CachedSessionServesFeed(served.0.data, pages[1..], load);
      }
    } else {
      SessionSticks(served.1, pages[1..], load, i - 1, j - 1);
    }
  }

  /** Until a fetch succeeds, each fetch goes to the network and returns the
      load's failure unchanged. */
  lemma {:induction false} SessionFailuresPassThrough(pages: seq<int>, load: int -> Outcome<Feed>, i: nat)
    requires i < |pages|
    requires forall k :: 0 <= k < i ==> Session(None, pages, load)[k].Failed?
    requires load(pages[i]).Failed?
    ensures Session(None, pages, load)[i] == load(pages[i])
  {
    if 0 < i {
      assert Session(None, pages, load)[0].Failed?;
      assert forall k :: 0 <= k < i - 1 ==> Session(None, pages[1..], load)[k] == Session(None, pages, load)[k + 1];
      SessionFailuresPassThrough(pages[1..], load, i - 1);
    }
  }
}
