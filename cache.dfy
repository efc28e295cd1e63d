/**
 * The visited cache: a process-wide map from URL to a flag, read by
 * `checkCache` and written by `addToCache`, and the dispatch filter of
 * `CrawlHtml` that keeps only the seeds the cache does not hold.
 *
 * Checking and inserting are two separate calls; nothing here performs them
 * as one step.
 */
module Cache {
  import opened SpiderTypes

  class VisitedCache {
    /** The global `cache` map. */
    var entries: map<string, bool>

    constructor ()
      ensures entries == map[]
    {
      entries := map[];
    }

    /** `checkCache`: whether `url` has an entry, whatever its flag; the cache is only read. */
    method CheckCache(url: string) returns (found: bool)
      ensures found <==> url in entries
    {
      found := url in entries;
    }

    /** `addToCache`: set the entry of `url` to `res`, leaving every other entry as it was. */
    method AddToCache(url: string, res: bool)
      modifies this
      ensures entries == old(entries)[url := res]
      ensures url in entries && entries[url] == res
      ensures forall u :: u != url ==> (u in entries <==> u in old(entries))
      ensures forall u :: u != url && u in entries ==> entries[u] == old(entries)[u]
    {
      entries := entries[url := res];
    }
  }

  /** The seeds of `seeds` whose URL has no entry in `entries`, in their order. */
  function Uncached(seeds: seq<HttpSeed>, entries: map<string, bool>): seq<HttpSeed>
  {
    if seeds == [] then []
    else if seeds[0].url in entries then Uncached(seeds[1..], entries)
    else [seeds[0]] + Uncached(seeds[1..], entries)
  }

  /** The filtered list is no longer than the list, and holds exactly its uncached seeds. */
  lemma {:induction false} UncachedMembers(seeds: seq<HttpSeed>, entries: map<string, bool>)
    ensures |Uncached(seeds, entries)| <= |seeds|
    ensures forall s :: s in Uncached(seeds, entries) <==> s in seeds && s.url !in entries
  {
    if seeds != [] {
      UncachedMembers(seeds[1..], entries);
      assert seeds == [seeds[0]] + seeds[1..];
    }
  }

  /** When every seed is cached nothing is dispatched; when none is, all are. */
  lemma {:induction false} UncachedExtremes(seeds: seq<HttpSeed>, entries: map<string, bool>)
    ensures (forall s :: s in seeds ==> s.url in entries) ==> Uncached(seeds, entries) == []
    ensures (forall s :: s in seeds ==> s.url !in entries) ==> Uncached(seeds, entries) == seeds
  {
    if seeds != [] {
      UncachedExtremes(seeds[1..], entries);
      assert forall s :: s in seeds[1..] ==> s in seeds;
    }
  }

  /** When some seed is cached, the filtered list is strictly shorter. */
  lemma {:induction false} UncachedDropsCached(seeds: seq<HttpSeed>, entries: map<string, bool>)
    ensures (exists s :: s in seeds && s.url in entries) ==> |Uncached(seeds, entries)| < |seeds|
  {
    if seeds != [] {
      UncachedDropsCached(seeds[1..], entries);
      UncachedMembers(seeds[1..], entries);
      assert forall s :: s in seeds ==> s == seeds[0] || s in seeds[1..];
    }
  }

  /**
   * The dispatch loop of `CrawlHtml`: a child crawl is started for every
   * seed whose URL the cache does not hold when it is checked. The children
   * themselves are not part of this filter, which reads the cache only.
   */
  method Dispatch(cache: VisitedCache, deduped: seq<HttpSeed>) returns (dispatched: seq<HttpSeed>)
    ensures dispatched == Uncached(deduped, cache.entries)
    ensures forall s :: s in dispatched <==> s in deduped && s.url !in cache.entries
  {
    dispatched := [];
    var i := 0;
    while i < |deduped|
      invariant 0 <= i <= |deduped|
      invariant dispatched + Uncached(deduped[i..], cache.entries) == Uncached(deduped, cache.entries)
    {
      var seed := deduped[i];
      assert deduped[i..][1..] == deduped[i + 1..];
      var cached := cache.CheckCache(seed.url);
      if !cached {
        dispatched := dispatched + [seed];
      }
      i := i + 1;
    }
    assert dispatched + [] == dispatched;
    UncachedMembers(deduped, cache.entries);
  }
}
