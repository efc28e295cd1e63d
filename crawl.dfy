/**
 * The crawl of one seed: claim it in the visited cache, fetch it, and, when
 * the response is HTML, extract the page, deduplicate its links, start a
 * child crawl for every link the cache does not hold, and collect the
 * children's results.
 *
 * The network is the function `fetch` from URL to response (`None`: the
 * request failed). Child crawls run one at a time: every seed of a page is
 * checked against the cache first, then the children run to completion in
 * the order they were dispatched, each crawling its own seed. As in the
 * source, a check and the later insertion by the child are separate steps.
 */
module Crawl {
  import opened Wrappers
  import opened Strings
  import opened Html
  import opened SpiderTypes
  import opened Extraction
  import opened Deduplication
  import opened Cache

  /**
   * The part of an HTTP response the crawler reads: the `content-type`
   * header, the URL after redirects, and the document the parser builds from
   * the body (`None`: the parser failed).
   */
  datatype Response = Response(contentType: string, finalUrl: string, body: Option<Node>)

  /**
   * `FetchError` and `ParseError` are returned to the caller; `Exited` is
   * the process ending through `log.Fatalln`, on an unresolvable link or a
   * failed child crawl.
   */
  datatype CrawlError = FetchError | ParseError | Exited

  /** The content-type gate of `Crawl`: only a type starting with "text/html" is parsed. */
  predicate IsHtml(contentType: string)
  {
    HasPrefix(contentType, "text/html")
  }

  /** The gate is a case-sensitive prefix test: parameters after the media type pass, other types and spellings do not. */
  lemma IsHtmlExamples()
    ensures IsHtml("text/html") && IsHtml("text/html; charset=utf-8")
    ensures !IsHtml("application/pdf") && !IsHtml("Text/HTML") && !IsHtml("")
  {
    assert "text/html; charset=utf-8"[..9] == "text/html";
    assert "application/pdf"[0] != "text/html"[0];
    assert "Text/HTML"[0] != "text/html"[0];
  }

  /** Every document the network can serve has a child under each of its `<title>` elements. */
  ghost predicate TitlesHaveChildEverywhere(fetch: string -> Option<Response>)
  {
    forall u :: fetch(u).Some? && fetch(u).value.body.Some? ==> TitlesHaveChild(Preorder(fetch(u).value.body.value))
  }

  /** Results of pages crawled at or above the tier threshold have no children, at every depth. */
  predicate TierBounded(r: CrawlResult, tier: int)
  {
    && (tier >= TierThreshold ==> r.seeds == [])
    && forall c :: c in r.seeds ==> TierBounded(c, tier + 1)
  }

  /** How many more tiers may still have children. */
  function Budget(tier: int): nat
  {
    if tier < TierThreshold then TierThreshold - tier else 0
  }

  /** The cache entries `addToCache(u, true)` writes for every `u` in `urls`. */
  function Marked(urls: set<string>): map<string, bool>
  {
    map u | u in urls :: true
  }

  /** Marking `a` and then `b` is marking their union. */
  lemma MarkedUnion(m: map<string, bool>, a: set<string>, b: set<string>)
    ensures m + Marked(a) + Marked(b) == m + Marked(a + b)
  {
  }

  /** A page at or above the tier threshold dispatches nothing. */
  lemma DispatchesNothingAtThreshold(ctx: Context, root: Node, entries: map<string, bool>)
    requires TitlesHaveChild(Preorder(root))
    ensures ctx.tier >= TierThreshold ==>
              Extract(ctx, root).Success? && Uncached(Deduplicated(Extract(ctx, root).value.seeds), entries) == []
  {
    if ctx.tier >= TierThreshold {
      NoSeedsAtThreshold(ctx, Preorder(root), EmptyPage);
    }
  }

  /** `c` put in front of the children of a successful outcome; a failure stays as it is. */
  function Prepend(c: CrawlResult, rest: (Result<seq<CrawlResult>, CrawlError>, map<string, bool>)): (Result<seq<CrawlResult>, CrawlError>, map<string, bool>)
  {
    if rest.0.Success? then (Success([c] + rest.0.value), rest.1) else rest
  }

  /** `crawled` put in front of the children of a successful outcome. */
  function PrependAll(crawled: seq<CrawlResult>, rest: (Result<seq<CrawlResult>, CrawlError>, map<string, bool>)): (Result<seq<CrawlResult>, CrawlError>, map<string, bool>)
  {
    if rest.0.Success? then (Success(crawled + rest.0.value), rest.1) else rest
  }

  lemma PrependAllNothing(rest: (Result<seq<CrawlResult>, CrawlError>, map<string, bool>))
    ensures PrependAll([], rest) == rest
  {
    if rest.0.Success? {
      assert [] + rest.0.value == rest.0.value;
    }
  }

  lemma PrependAllStep(crawled: seq<CrawlResult>, c: CrawlResult, rest: (Result<seq<CrawlResult>, CrawlError>, map<string, bool>))
    ensures PrependAll(crawled, Prepend(c, rest)) == PrependAll(crawled + [c], rest)
  {
    if rest.0.Success? {
      assert crawled + ([c] + rest.0.value) == crawled + [c] + rest.0.value;
    }
  }

  /**
   * A `sync.WaitGroup`. `Wait` returns once the counter is zero and never
   * returns otherwise, so the model admits it only at zero.
   */
  class WaitGroup {
    var counter: int

    constructor ()
      ensures counter == 0
    {
      counter := 0;
    }

    /** A negative counter makes the library panic. */
    method Add(delta: int)
      requires counter + delta >= 0
      modifies this
      ensures counter == old(counter) + delta
    {
      counter := counter + delta;
    }

    method Done()
      requires counter > 0
      modifies this
      ensures counter == old(counter) - 1
    {
      counter := counter - 1;
    }

    /** `Wait` returns only once the counter is zero. */
    method Wait()
      requires counter == 0
      ensures counter == 0
    {
    }
  }

  class Crawler {
    /** The process-wide visited cache. */
    const cache: VisitedCache
    const fetch: string -> Option<Response>
    /** `handleRelativeUrl`. */
    const resolve: (string, string) -> Option<string>

    constructor (fetch: string -> Option<Response>, resolve: (string, string) -> Option<string>)
      ensures fresh(cache) && cache.entries == map[]
      ensures this.fetch == fetch && this.resolve == resolve
    {
      cache := new VisitedCache();
      this.fetch := fetch;
      this.resolve := resolve;
    }

    /**
     * `c` is the result of crawling `url` at `tier`, as far as it does not
     * depend on the cache: the fetch succeeded; a response that is not HTML
     * gave the empty result; an HTML response parsed, its extraction
     * succeeded, and `c` carries that extraction's title, description and
     * content.
     */
    ghost predicate PageAt(c: CrawlResult, url: string, tier: int)
      requires TitlesHaveChildEverywhere(fetch)
    {
      && fetch(url).Some?
      && (var resp := fetch(url).value;
          if !IsHtml(resp.contentType) then c == EmptyResult
          else
            && resp.body.Some?
            && (var page := Extract(Context(tier, resp.finalUrl, resolve), resp.body.value);
                && page.Success?
                && c.title == page.value.title
                && c.description == page.value.description
                && c.content == page.value.content))
    }

    /**
     * The network serves every URL, and every HTML document it serves parses
     * and has only links the resolver accepts, at every tier: the conditions
     * under which the source returns a result instead of an error or an exit.
     */
    ghost predicate Healthy()
      requires TitlesHaveChildEverywhere(fetch)
    {
      forall u :: Serves(u)
    }

    /** `url` is fetched, and, when it is HTML, parses and extracts at every tier. */
    ghost predicate Serves(url: string)
      requires TitlesHaveChildEverywhere(fetch)
    {
      && fetch(url).Some?
      && (IsHtml(fetch(url).value.contentType) ==>
            && fetch(url).value.body.Some?
            && forall t :: Extracts(url, t))
    }

    /** The document served at `url` is extracted at `tier` without an unresolvable link. */
    ghost predicate Extracts(url: string, tier: int)
      requires TitlesHaveChildEverywhere(fetch)
      requires fetch(url).Some? && fetch(url).value.body.Some?
    {
      Extract(Context(tier, fetch(url).value.finalUrl, resolve), fetch(url).value.body.value).Success?
    }

    /**
     * `r` is what `CrawlHtml` assembles for the document `root` served from
     * `base` and crawled at `tier` when the cache held `entries` at the start: the extracted title,
     * description and content, and, at position `k`, the crawl of the `k`-th
     * deduplicated link the cache did not hold.
     */
    ghost predicate Reports(r: CrawlResult, tier: int, base: string, root: Node, entries: map<string, bool>)
      requires TitlesHaveChildEverywhere(fetch)
      requires TitlesHaveChild(Preorder(root))
    {
      var page := Extract(Context(tier, base, resolve), root);
      && page.Success?
      && r.title == page.value.title
      && r.description == page.value.description
      && r.content == page.value.content
      && r.tier == 0 && r.kind == ""
      && ChildrenAt(r.seeds, Uncached(Deduplicated(page.value.seeds), entries), tier + 1)
    }

    /** Child `k` of `children` is the crawl of the `k`-th seed of `dispatched` at `tier`. */
    ghost predicate ChildrenAt(children: seq<CrawlResult>, dispatched: seq<HttpSeed>, tier: int)
      requires TitlesHaveChildEverywhere(fetch)
    {
      && |children| == |dispatched|
      && forall k :: 0 <= k < |dispatched| ==> PageAt(children[k], dispatched[k].url, tier)
    }

    /** A result with the extracted fields and the crawls of the dispatched seeds reports the page. */
    lemma ReportsIntro(r: CrawlResult, tier: int, base: string, root: Node, entries: map<string, bool>, page: Page, dispatched: seq<HttpSeed>)
      requires TitlesHaveChildEverywhere(fetch)
      requires TitlesHaveChild(Preorder(root))
      requires Extract(Context(tier, base, resolve), root) == Success(page)
      requires r.title == page.title && r.description == page.description && r.content == page.content
      requires r.tier == 0 && r.kind == ""
      requires dispatched == Uncached(Deduplicated(page.seeds), entries)
      requires ChildrenAt(r.seeds, dispatched, tier + 1)
      ensures Reports(r, tier, base, root, entries)
    {
    }

    /**
     * The crawl of `url` at `tier`, starting from the cache `entries`, as the
     * methods below perform it: the result and the cache afterwards.
     */
    ghost function CrawlOf(url: string, tier: int, entries: map<string, bool>): (Result<CrawlResult, CrawlError>, map<string, bool>)
      requires TitlesHaveChildEverywhere(fetch)
      decreases Budget(tier), 2
    {
      var claimedHere := entries[url := true];
      match fetch(url)
      case None => (Failure(FetchError), claimedHere)
      case Some(resp) =>
        if IsHtml(resp.contentType) then CrawlHtmlOf(resp, tier, claimedHere)
        else (Success(EmptyResult), claimedHere)
    }

    /** `CrawlHtml` on `resp` at `tier`, starting from the cache `entries`. */
    ghost function CrawlHtmlOf(resp: Response, tier: int, entries: map<string, bool>): (Result<CrawlResult, CrawlError>, map<string, bool>)
      requires TitlesHaveChildEverywhere(fetch)
      requires resp.body.Some? ==> TitlesHaveChild(Preorder(resp.body.value))
      decreases Budget(tier), 1
    {
      if resp.body.None? then (Failure(ParseError), entries)
      else
        var ctx := Context(tier, resp.finalUrl, resolve);
        var page := Extract(ctx, resp.body.value);
        if page.Failure? then (Failure(Exited), entries)
        else
          var dispatched := Uncached(Deduplicated(page.value.seeds), entries);
          DispatchesNothingAtThreshold(ctx, resp.body.value, entries);
          var (children, after) := ChildrenOf(dispatched, tier, entries);
          if children.Failure? then (Failure(Exited), after)
          else
            var p := page.value;
            (Success(CrawlResult(p.title, p.content, p.description, children.value, 0, "")), after)
    }

    /**
     * The children of a page at `tier`: the crawls at the next tier of the
     * `dispatched` seeds, one after the other, each starting from the cache
     * the previous one left. A failed child ends the process.
     */
    ghost function ChildrenOf(dispatched: seq<HttpSeed>, tier: int, entries: map<string, bool>): (Result<seq<CrawlResult>, CrawlError>, map<string, bool>)
      requires TitlesHaveChildEverywhere(fetch)
      requires tier < TierThreshold || dispatched == []
      decreases Budget(tier), 0, |dispatched|
    {
      if dispatched == [] then (Success([]), entries)
      else
        var (first, after) := CrawlOf(dispatched[0].url, tier + 1, entries);
        if first.Failure? then (Failure(Exited), after)
        else Prepend(first.value, ChildrenOf(dispatched[1..], tier, after))
    }

    /**
     * `u` is `url` itself, or a page the crawl can reach from `url` at
     * `tier`: below the threshold, through a link the page at `url` yields.
     */
    ghost predicate Reaches(u: string, url: string, tier: int)
      requires TitlesHaveChildEverywhere(fetch)
      decreases Budget(tier)
    {
      || u == url
      || (&& tier < TierThreshold
          && fetch(url).Some? && IsHtml(fetch(url).value.contentType) && fetch(url).value.body.Some?
          && var page := Extract(Context(tier, fetch(url).value.finalUrl, resolve), fetch(url).value.body.value);
             && page.Success?
             && exists s :: s in page.value.seeds && Reaches(u, s.url, tier + 1))
    }

    /** Every URL the crawl of `url` adds to the cache is a page it reaches from `url`: the cache grows only by reachable pages. */
    lemma {:induction false} CrawlOfReaches(url: string, tier: int, entries: map<string, bool>)
      requires TitlesHaveChildEverywhere(fetch)
      decreases Budget(tier), 2
      ensures forall u :: u in CrawlOf(url, tier, entries).1 ==> u in entries || Reaches(u, url, tier)
    {
      var claimedHere := entries[url := true];
      if fetch(url).Some? && IsHtml(fetch(url).value.contentType) {
        var resp := fetch(url).value;
        CrawlHtmlOfReaches(resp, tier, claimedHere);
      }
    }

    lemma {:induction false} CrawlHtmlOfReaches(resp: Response, tier: int, entries: map<string, bool>)
      requires TitlesHaveChildEverywhere(fetch)
      requires resp.body.Some? ==> TitlesHaveChild(Preorder(resp.body.value))
      decreases Budget(tier), 1
      ensures forall u :: u in CrawlHtmlOf(resp, tier, entries).1 ==>
                || u in entries
                || (&& tier < TierThreshold && resp.body.Some?
                    && var page := Extract(Context(tier, resp.finalUrl, resolve), resp.body.value);
                       page.Success? && exists s :: s in page.value.seeds && Reaches(u, s.url, tier + 1))
    {
      if resp.body.Some? {
        var ctx := Context(tier, resp.finalUrl, resolve);
        var page := Extract(ctx, resp.body.value);
        if page.Success? {
          var deduped := Deduplicated(page.value.seeds);
          var dispatched := Uncached(deduped, entries);
          DispatchesNothingAtThreshold(ctx, resp.body.value, entries);
          ChildrenOfReaches(dispatched, tier, entries);
          UncachedMembers(deduped, entries);
          DedupKeepsEverySeed(page.value.seeds);
        }
      }
    }

    lemma {:induction false} ChildrenOfReaches(dispatched: seq<HttpSeed>, tier: int, entries: map<string, bool>)
      requires TitlesHaveChildEverywhere(fetch)
      requires tier < TierThreshold || dispatched == []
      decreases Budget(tier), 0, |dispatched|
      ensures forall u :: u in ChildrenOf(dispatched, tier, entries).1 ==>
                u in entries || exists s :: s in dispatched && Reaches(u, s.url, tier + 1)
    {
      if dispatched != [] {
        var (first, after) := CrawlOf(dispatched[0].url, tier + 1, entries);
        CrawlOfReaches(dispatched[0].url, tier + 1, entries);
        if first.Success? {
          ChildrenOfReaches(dispatched[1..], tier, after);
          assert forall s :: s in dispatched[1..] ==> s in dispatched;
        }
      }
    }

    /**
     * `HttpSeed.Crawl`: mark the seed's URL in the cache (without checking
     * it), fetch it, and hand HTML to `CrawlHtml`; any other content type is
     * an empty result and no error.
     */
    method Crawl(seed: HttpSeed, tier: int) returns (r: Result<CrawlResult, CrawlError>, ghost claimed: set<string>)
      requires TitlesHaveChildEverywhere(fetch)
      modifies cache
      decreases Budget(tier), 2
      ensures (r, cache.entries) == CrawlOf(seed.url, tier, old(cache.entries))
      ensures r.Failure? ==> (r.error == FetchError <==> fetch(seed.url).None?)
      ensures fetch(seed.url).Some? && IsHtml(fetch(seed.url).value.contentType) && fetch(seed.url).value.body.Some? &&
              Extract(Context(tier, fetch(seed.url).value.finalUrl, resolve), fetch(seed.url).value.body.value).Failure? ==>
                r == Failure(Exited)
      ensures seed.url in claimed
      ensures cache.entries == old(cache.entries) + Marked(claimed)
      ensures Healthy() ==> r.Success?
      ensures fetch(seed.url).Some? && IsHtml(fetch(seed.url).value.contentType) && fetch(seed.url).value.body.None? ==>
                r == Failure(ParseError)
      ensures fetch(seed.url).None? ==>
                r == Failure(FetchError) && cache.entries == old(cache.entries)[seed.url := true]
      ensures fetch(seed.url).Some? && !IsHtml(fetch(seed.url).value.contentType) ==>
                r == Success(EmptyResult) && cache.entries == old(cache.entries)[seed.url := true]
      ensures r.Success? ==> TierBounded(r.value, tier) && PageAt(r.value, seed.url, tier)
      ensures r.Success? && fetch(seed.url).Some? && IsHtml(fetch(seed.url).value.contentType) ==>
                var resp := fetch(seed.url).value;
                resp.body.Some? &&
                Reports(r.value, tier, resp.finalUrl, resp.body.value, old(cache.entries)[seed.url := true])
    {
      cache.AddToCache(seed.url, true);
      claimed := {seed.url};
      assert cache.entries == old(cache.entries) + Marked(claimed);
      var resp := fetch(seed.url);
      if Healthy() {
        assert Serves(seed.url);
        if resp.Some? && IsHtml(resp.value.contentType) {
          assert Extracts(seed.url, tier);
        }
      }
      if resp.None? {
        return Failure(FetchError), claimed;
      }
      var contentType := resp.value.contentType;
      if HasPrefix(contentType, "text/html") {
        ghost var below: set<string>;
        r, below := CrawlHtml(resp.value, tier);
        MarkedUnion(old(cache.entries), claimed, below);
        claimed := claimed + below;
        return;
      }
      return Success(EmptyResult), claimed;
    }

    /**
     * `CrawlHtml`: extract the page, deduplicate its links, start a child
     * crawl at the next tier for each link the cache does not hold, wait for
     * all of them, and assemble the result. A failed child ends the process.
     * The WaitGroup belongs to this page and counts exactly the children it
     * starts.
     */
    method CrawlHtml(resp: Response, tier: int) returns (r: Result<CrawlResult, CrawlError>, ghost claimed: set<string>)
      requires TitlesHaveChildEverywhere(fetch)
      requires resp.body.Some? ==> TitlesHaveChild(Preorder(resp.body.value))
      modifies cache
      decreases Budget(tier), 1
      ensures (r, cache.entries) == CrawlHtmlOf(resp, tier, old(cache.entries))
      ensures cache.entries == old(cache.entries) + Marked(claimed)
      ensures Healthy() && resp.body.Some? && Extract(Context(tier, resp.finalUrl, resolve), resp.body.value).Success? ==>
                r.Success?
      ensures r.Failure? ==> (resp.body.None? && r.error == ParseError) || r.error == Exited
      ensures resp.body.None? ==> r == Failure(ParseError) && cache.entries == old(cache.entries)
      ensures resp.body.Some? && Extract(Context(tier, resp.finalUrl, resolve), resp.body.value).Failure? ==>
                r == Failure(Exited)
      ensures r.Success? ==> TierBounded(r.value, tier)
      ensures r.Success? ==>
                resp.body.Some? &&
                Reports(r.value, tier, resp.finalUrl, resp.body.value, old(cache.entries))
    {
      claimed := {};
      assert cache.entries == old(cache.entries) + Marked(claimed);
      if resp.body.None? {
        return Failure(ParseError), claimed;
      }
      var doc := resp.body.value;
      var ctx := Context(tier, resp.finalUrl, resolve);
      var ex := new Extractor(ctx);
      var err := ex.Visit(doc);
      if err.Some? {
        return Failure(Exited), claimed;
      }
      ghost var page := ex.State();
      assert Extract(ctx, doc) == Success(page);
      if tier >= TierThreshold {
        NoSeedsAtThreshold(ctx, Preorder(doc), EmptyPage);
      }

      var title, description, content := ex.title, ex.description, ex.content;
      var deduped := Dedup(ex.seeds);
      var dispatched := Dispatch(cache, deduped);
      assert tier >= TierThreshold ==> dispatched == [];
      ghost var entries := cache.entries;
      assert entries == old(cache.entries);
      assert dispatched == Uncached(Deduplicated(page.seeds), entries);

      var wg := new WaitGroup();
      wg.Add(|dispatched|);
      var children;
      children, claimed := CrawlChildren(dispatched, tier, wg);
      if children.Failure? {
        return Failure(Exited), claimed;
      }
      var crawled := children.value;
      wg.Wait();

      var result := CrawlResult(title, content, description, crawled, 0, "");
      ReportsIntro(result, tier, resp.finalUrl, doc, entries, page, dispatched);
      r := Success(result);
    }

    /**
     * The dispatch loop of `CrawlHtml` after the cache checks: crawl each
     * dispatched seed at the next tier, in order, and count each finished
     * child off the page's WaitGroup. A failed child ends the process.
     */
    method CrawlChildren(dispatched: seq<HttpSeed>, tier: int, wg: WaitGroup)
      returns (r: Result<seq<CrawlResult>, CrawlError>, ghost claimed: set<string>)
      requires TitlesHaveChildEverywhere(fetch)
      requires tier < TierThreshold || dispatched == []
      requires wg.counter == |dispatched|
      modifies cache, wg
      decreases Budget(tier), 0
      ensures (r, cache.entries) == ChildrenOf(dispatched, tier, old(cache.entries))
      ensures cache.entries == old(cache.entries) + Marked(claimed)
      ensures Healthy() ==> r.Success?
      ensures r.Failure? ==> r.error == Exited
      ensures r.Success? ==> forall s :: s in dispatched ==> s.url in claimed
      ensures r.Success? ==> wg.counter == 0
      ensures r.Success? ==> forall c :: c in r.value ==> TierBounded(c, tier + 1)
      ensures r.Success? ==> ChildrenAt(r.value, dispatched, tier + 1)
    {
      var crawled: seq<CrawlResult> := [];
      claimed := {};
      assert cache.entries == old(cache.entries) + Marked(claimed);
      assert dispatched[0..] == dispatched;
      PrependAllNothing(ChildrenOf(dispatched, tier, cache.entries));
      var i := 0;
      while i < |dispatched|
        invariant 0 <= i <= |dispatched|
        invariant wg.counter == |dispatched| - i
        invariant forall c :: c in crawled ==> TierBounded(c, tier + 1)
        invariant ChildrenAt(crawled, dispatched[..i], tier + 1)
        invariant cache.entries == old(cache.entries) + Marked(claimed)
        invariant forall k :: 0 <= k < i ==> dispatched[k].url in claimed
        invariant ChildrenOf(dispatched, tier, old(cache.entries)) ==
                  PrependAll(crawled, ChildrenOf(dispatched[i..], tier, cache.entries))
      {
        var res;
        ghost var below: set<string>;
        assert dispatched[i..][1..] == dispatched[i + 1..];
        res, below := Crawl(dispatched[i], tier + 1);
        MarkedUnion(old(cache.entries), claimed, below);
        claimed := claimed + below;
        if res.Failure? {
          return Failure(Exited), claimed;
        }
        assert dispatched[..i + 1] == dispatched[..i] + [dispatched[i]];
        PrependAllStep(crawled, res.value, ChildrenOf(dispatched[i + 1..], tier, cache.entries));
        crawled := crawled + [res.value];
        wg.Done();
        i := i + 1;
      }
      assert dispatched[..i] == dispatched;
      assert crawled + [] == crawled;
      r := Success(crawled);
      assert forall s :: s in dispatched ==> s.url in claimed;
    }
  }

  /**
   * The counter of the WaitGroup that `CrawlHtml` waits on, driven as the
   * source drives it, once every child goroutine this page started has
   * called `Done`. The source shares one WaitGroup across the whole crawl:
   * `inFlight` goroutines it counts are still running (for any page but the
   * root, the goroutine crawling this very page is one of them). The page
   * adds one per deduplicated seed, but only the dispatched seeds ever call
   * `Done`.
   */
  function SharedWaitCounter(inFlight: nat, deduped: seq<HttpSeed>, entries: map<string, bool>): (c: int)
    ensures c >= inFlight
  {
    UncachedMembers(deduped, entries);
    inFlight + |deduped| - |Uncached(deduped, entries)|
  }

  /**
   * As written, the wait of a page returns only when no other counted
   * goroutine is running and none of the page's deduplicated links was
   * already in the cache.
   */
  lemma SharedWaitReturnsIff(inFlight: nat, deduped: seq<HttpSeed>, entries: map<string, bool>)
    ensures SharedWaitCounter(inFlight, deduped, entries) == 0 <==>
            inFlight == 0 && forall s :: s in deduped ==> s.url !in entries
  {
    UncachedMembers(deduped, entries);
    UncachedExtremes(deduped, entries);
    UncachedDropsCached(deduped, entries);
  }

  /**
   * The root page links to itself: its own URL entered the cache when its
   * crawl began, so its one seed is not dispatched, and the counter stays at
   * one.
   */
  lemma SelfLinkNeverReturns(u: string)
    ensures SharedWaitCounter(0, [HttpSeed(u)], map[u := true]) == 1
  {
    assert Uncached([HttpSeed(u)], map[u := true]) == [];
  }

  /**
   * Any page below the root, whatever its links and whatever the cache
   * holds, waits on a counter that includes its own goroutine's pending
   * `Done`, so its wait never returns. A page without links sees exactly
   * that one pending `Done`.
   */
  lemma NestedWaitNeverReturns(inFlight: nat, deduped: seq<HttpSeed>, entries: map<string, bool>)
    requires inFlight >= 1
    ensures SharedWaitCounter(inFlight, deduped, entries) != 0
    ensures deduped == [] ==> SharedWaitCounter(inFlight, deduped, entries) == inFlight
  {
    SharedWaitReturnsIff(inFlight, deduped, entries);
  }
}
