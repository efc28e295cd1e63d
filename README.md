# rummage crawl engine, modelled in Dafny

rummage is a tiered web crawler. Given a seed URL it fetches the page, extracts the title, the meta
description, the text content and the outbound links, and crawls those links recursively while the
tier (depth) is below 2. The result is a tree of `CrawlResult`s. A small renderer prints the tree
as indented title lines.

This project models the sequential core of that engine:

- `Html` (`html.dfy`): the parsed document tree (element with tag and attributes, text, other),
  and its pre-order listing.
- `SpiderTypes` (`spider_types.dfy`): `CrawlResult`, `HttpSeed` and the tier threshold 2.
- `Extraction` (`extract.dfy`): `getAttr` and the traversal closure of `CrawlHtml`. It has two forms:
  - `Step`/`StepAll`: the per-node effect folded over the pre-order listing (the specification).
  - `Extractor.Visit`: a recursive method assigning the title, description, content and seeds
    fields, proved equal to that fold.
- `Deduplication` (`dedup.dfy`): `dedup` as a loop over a seen-map, proved against a
  specification function.
- `Cache` (`cache.dfy`): the visited cache as a class over a map (`checkCache`, `addToCache`), and
  the dispatch filter that keeps the deduplicated seeds the cache does not hold.
- `Crawl` (`crawl.dfy`): `HttpSeed.Crawl` and `CrawlHtml` as mutually recursive methods of a
  `Crawler` class, each proved equal to a ghost function (`CrawlOf`, `CrawlHtmlOf`, `ChildrenOf`)
  that gives the whole crawl: the result tree and the cache afterwards. The network is a function parameter from URL to response (content type, final
  URL, parsed body). This module also holds the content-type gate and the WaitGroup accounting.
- `Report` (`report.dfy`): `logResult`, returning its lines instead of printing them.
- `Wrappers`, `Strings`: `Option`/`Result` and `strings.HasPrefix`.

Where the engine's intended design and its code disagree, the model follows the code:

- The last `<title>` and the last description `<meta>` win, not the first.
- A `<title>` without a child is a nil dereference, so it is a precondition (`TitlesHaveChild`).
  The model does not yield "".
- A link the resolver refuses ends the process (`log.Fatalln`); it is not skipped.
  `Extract` fails with `Unresolvable`, and `CrawlHtml` returns `Exited`.
- A failing child crawl also ends the process, so `CrawlHtml` returns `Exited`; siblings are not
  isolated from it.
- `Crawl` marks its own URL in the cache without checking it. The dispatch loop checks, and the
  child inserts later. There is no atomic claim.
- Deduplication happens in `CrawlHtml` after the walk, not inside the extractor. The effect on
  the dispatched seeds is the same.

Child crawls run one at a time. All of a page's seeds are checked first, then the children run to
completion in dispatch order, and child `k` is the crawl of the `k`-th dispatched seed. This
schedule assumes that each goroutine crawls its own seed (see "## Left out" on the loop variable).
In this schedule a URL can still be crawled twice. Suppose page P dispatches A and B, and A's
subtree reaches B. Then B is crawled again when its own turn comes, because its check happened
before A ran.

## Model

| member | source | states |
|---|---|---|
| `Extraction.GetAttr` | spider/http.go:137-144 | The result is the `Val` of the first attribute whose key is `name`, and "" when no key matches. |
| `Extraction.Extractor.constructor` | spider/http.go:51-54 | The walk starts with empty title, description and content and no seeds. |
| `Extraction.Extractor.Visit` | spider/http.go:56-85 | Visiting a node and then its children in order leaves the fields equal to `StepAll` over the node's pre-order listing. An unresolvable link stops the walk with that error, and the error agrees with `StepAll`. |
| `Extraction.Extractor.VisitNode` | spider/http.go:57-83 | The work at one node leaves the fields equal to `Step`. It sets the title, collects the link, sets the description or appends the text, or stops with the resolver's error. |
| `Extraction.ContentIsDocumentText` | spider/http.go:76-82 | `content` is the concatenation of every text node's data, in document order. |
| `Extraction.TitleIsLastTitle` | spider/http.go:58-59 | `title` is the first child's data of the last `<title>` in pre-order. It is unchanged when there is no `<title>`. |
| `Extraction.DescriptionIsLastMeta` | spider/http.go:72-75 | `description` is the `content` attribute of the last `<meta name="description">`. It is unchanged when there is none. |
| `Extraction.SeedsOnlyGrow` | spider/http.go:60-71 | Seeds are only appended, at most one per followed `<a>`. No appended URL starts with "mailto:". |
| `Extraction.NoSeedsAtThreshold` | spider/http.go:62 | At tier 2 or above the walk never fails and collects no seed. |
| `Extraction.FailsIffUnresolvable` | spider/http.go:62-66 | The walk fails exactly when some `<a>` with a non-empty href, below the threshold, has an href the resolver refuses. |
| `Extraction.SeedsComeFromLinks` | spider/http.go:60-70 | Every collected seed is the resolved href of some followed `<a>`. |
| `Extraction.LinksBecomeSeeds` | spider/http.go:60-70 | Every followed `<a>` resolves. If the resolved URL does not start with "mailto:", its seed is collected. |
| `Deduplication.Dedup` | spider/http.go:160-173 | The seen-map loop returns exactly `Deduplicated(seeds)`. |
| `Deduplication.DedupKeepsEverySeed` | spider/http.go:164-170 | A seed is in the output iff it is in the input. |
| `Deduplication.DedupHasNoDuplicates` | spider/http.go:164-170 | No seed appears twice in the output. |
| `Deduplication.DedupKeepsFirstOccurrenceOrder` | spider/http.go:164-170 | The output is a subsequence of the input. It lists seeds in the order of their first occurrences. |
| `Deduplication.DedupOfDistinct` | spider/http.go:164-170 | An input without repeats is returned unchanged. |
| `Deduplication.DedupIdempotent` | spider/http.go:160-173 | Deduplicating twice equals deduplicating once. |
| `Cache.VisitedCache.constructor` | spider/http.go:15 | The cache starts empty. |
| `Cache.VisitedCache.CheckCache` | spider/http.go:146-151 | The result is true iff the URL has an entry, whatever its flag. The method modifies nothing. |
| `Cache.VisitedCache.AddToCache` | spider/http.go:153-158 | Afterwards the URL maps to `res`. Every other key keeps its presence and value. |
| `Cache.Dispatch` | spider/http.go:91-107 | The dispatched seeds are the deduplicated seeds whose URL is not cached, in order. A seed is dispatched iff it is uncached. |
| `Cache.UncachedMembers` | spider/http.go:91-107 | The filter never lengthens the list. It keeps exactly the uncached seeds. |
| `Cache.UncachedExtremes` | spider/http.go:91-107 | If every seed is cached, nothing is dispatched. If none is, all are. |
| `Cache.UncachedDropsCached` | spider/http.go:91-107 | If any seed is cached, strictly fewer seeds are dispatched than were found. |
| `Crawl.IsHtmlExamples` | spider/http.go:35 | The gate accepts "text/html" with parameters. It rejects "application/pdf", "Text/HTML" and "". |
| `Crawl.Crawler.constructor` | spider/http.go:15 | A crawl starts with an empty visited cache. |
| `Crawl.Crawler.Crawl` | spider/http.go:25-41 | The result and the new cache are exactly `CrawlOf(url, tier, old cache)`, the whole sequential crawl including every descendant's subtree. The seed's URL is marked `true`, and the cache gains only `true` entries. A failed fetch returns `FetchError`, and no other failure is `FetchError`. A content type not starting with "text/html" returns the empty result and no error. An HTML body that does not parse returns `ParseError`. One that extracts with an unresolvable link returns `Exited`. A successful result is the crawl of the seed's URL (`PageAt`), reports its children, and has no children at or beyond tier 2. Under `Healthy` the crawl succeeds. |
| `Crawl.Crawler.CrawlHtml` | spider/http.go:43-117 | The result and the new cache are exactly `CrawlHtmlOf(resp, tier, old cache)`. A parse failure returns `ParseError`. An unresolvable link or a failed child returns `Exited`, and no other error is returned. Under `Healthy` with a successful extraction, the result is a success. On success, title, description and content equal the extraction. There is one child per deduplicated seed that was uncached when checked, and child `k` is the complete crawl of the `k`-th such seed at the next tier, cache included. The tree is tier-bounded, the cache gains only `true` entries, and the page's WaitGroup is waited on only at zero. |
| `Crawl.Crawler.CrawlChildren` | spider/http.go:92-104 | The children and the new cache are exactly `ChildrenOf(dispatched, tier, old cache)`: each seed is crawled in full at the next tier, in order, each from the cache the previous one left. Child `k` is `PageAt` the `k`-th seed's URL, and every child is tier-bounded. The WaitGroup is back at zero after the last `Done`. A failure is always `Exited`, and under `Healthy` there is none. On success, every dispatched seed is claimed in the cache. |
| `Crawl.Crawler.CrawlOfReaches` | spider/http.go:25-28 | Every URL a crawl adds to the cache is a page it reaches: the seed itself, or, below tier 2, a page reached from a link of an extracted page. |
| `Crawl.Crawler.CrawlHtmlOfReaches` | spider/http.go:86-104 | Every URL a page's crawl adds to the cache is reached, below tier 2, from one of the page's extracted links. |
| `Crawl.Crawler.ChildrenOfReaches` | spider/http.go:91-104 | Every URL the children add to the cache is reached from one of the dispatched seeds at the next tier. |
| `Crawl.WaitGroup.constructor` | main.go:11 | The counter starts at zero, like a zero `sync.WaitGroup`. |
| `Crawl.WaitGroup.Add` | spider/http.go:90 | The counter grows by `delta` and may not become negative. |
| `Crawl.WaitGroup.Done` | spider/http.go:100 | The counter drops by one and must be positive before. |
| `Crawl.WaitGroup.Wait` | spider/http.go:109 | `Wait` returns only when the counter is zero. |
| `Crawl.SharedWaitCounter` | spider/http.go:90-109 | As written, the shared WaitGroup counter at the page's `Wait` is at least the number of other counted goroutines still running. |
| `Crawl.SharedWaitReturnsIff` | spider/http.go:90-109 | As written, the page's `Wait` can return only if no other counted goroutine is running and no deduplicated seed was cached. |
| `Crawl.SelfLinkNeverReturns` | spider/http.go:26-109 | A root page linking only to itself leaves the counter at 1. |
| `Crawl.NestedWaitNeverReturns` | spider/http.go:93-109 | For every page below the root, whatever its links and the cache, the shared counter it waits on is never zero, so its `Wait` never returns. A page with no links sees exactly its own pending `Done`. |
| `Report.LogResult` | main.go:23-30 | The first line is `prefix + title`, even for an empty title. Every line starts with `prefix`. Every later line starts with `prefix` plus two spaces. |
| `Report.LogChildren` | main.go:25-29 | Every line printed for the children starts with the children's prefix. |
| `Report.LineCount` | main.go:23-30 | The line count is 1 plus the line counts of the children with a title, recursively. It does not depend on the prefix. |
| `Report.LineCountAll` | main.go:25-29 | The lines printed for a child list number the shown pages under its titled children. |
| `Report.UntitledChildrenOmitted` | main.go:25-28 | Dropping the untitled children, with their subtrees, does not change the output. |
| `Report.ChildrenInOrder` | main.go:25-29 | Children are printed in `Seeds` order. The lines for `a + b` are the lines for `a`, then for `b`. |
| `Report.PrefixDistributes` | main.go:24-27 | Printing under a prefix equals printing under "" with the prefix put before every line. |
| `Report.PrefixShift` | main.go:24-27 | Extending a prefix on the outside prepends that extension to every line. |
| `Report.PrefixShiftAll` | main.go:25-29 | The same holds for the lines printed for a child list. |

## Left out

- HTTP fetching (`http.Get`, the response headers, `resp.Request.URL`): the network is the function
  `fetch`, a fixed map from URL to response. It gives the content type, the final URL, and the
  parsed document or a parse failure.
- `html.Parse`: the model starts from a built node tree. Tags are taken as the parser reports them.
- `handleRelativeUrl` (spider/http.go:119-135): an abstract resolver `(base, href) -> Option<string>`.
  Two things are not modelled. Its RFC 3986 section 5.2 resolution and fragment stripping are not
  modelled. When the href does not parse, the source sets `Fragment` on a nil value before testing
  the error, which is a panic rather than the `log.Fatalln`. Both end the process, so both are
  `Exited`.
- Concurrency: goroutines, `time.Sleep`, the cache mutex, and the unsynchronised append to the
  children's list (spider/http.go:99). Children run one at a time, each on its own seed, so
  their results appear in dispatch order rather than completion order.
- Logging and printing (`log.Println`, `fmt.Println`, the messages of `log.Fatalln`): only the exit
  itself is modelled.
- `Report.LogResult` returns one string per `fmt.Println` call (main.go:24). A title that contains a
  newline prints as several terminal lines, and only the first of them carries the prefix. The model
  does not split titles at newlines.
- `main()` (main.go:10-21): a hard-coded network seed followed by printing.
- `CrawlResult.Tier` and `CrawlResult.Type` are never set by the code. They stay 0 and "".
- The dispatch loop's goroutine closure (spider/http.go:93-94) captures the `range` variable `seed`.
  The model gives each child crawl its own seed. That holds under Go 1.22 per-iteration loop
  variables. Under earlier Go it holds only if each goroutine reads `seed.Url` (lines 26-28) before the
  next iteration; the 100 ns sleep at line 103 makes that likely but does not guarantee it. The
  model does not capture a goroutine that crawls a later seed instead of its own.
- `WaitGroup` stands for the library's `sync.WaitGroup`, reduced to its counter: `Add` and `Done`
  change it, a negative counter is excluded, and `Wait` is admitted only at zero because it would
  block forever otherwise.
- `Crawl.Crawler.CrawlHtml`: uses one WaitGroup per page, with one `Add` per started child, instead
  of the crawl-wide WaitGroup with an `Add` per deduplicated seed. Under the source's accounting
  the wait cannot return in the cases listed under Findings.

## Findings

| source | as written | input that shows it | evidently intended | confidence | as-written member | corrected member |
|---|---|---|---|---|---|---|
| spider/http.go:90-107 | The WaitGroup is incremented once per deduplicated seed. Only the goroutines started for uncached seeds call `Done`. | A root page whose only link points to itself. Its URL is cached at line 26 before the check at line 92, so the counter stays at 1 and `Wait` never returns. | One increment per started goroutine, so `Wait` returns when the started children finish. | high; not executed | `Crawl.SelfLinkNeverReturns` | `Crawl.Crawler.CrawlHtml` |
| spider/http.go:93-109 | One WaitGroup is shared by the whole crawl. A child's own `CrawlHtml` waits on it while that child's `Done` (line 100) is still pending. | Any HTML page at tier 1, even one without links. Its `Wait` sees a counter of at least 1. | A WaitGroup per page that counts only that page's children. | high; not executed | `Crawl.NestedWaitNeverReturns` | `Crawl.Crawler.CrawlHtml` |
