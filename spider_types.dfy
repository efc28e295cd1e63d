/** The crawler's value types: the result tree and the HTTP seed. */
module SpiderTypes {

  /**
   * One crawled page and the results of the pages crawled from it.
   * `kind` stands for the Go field `Type`; neither `tier` nor `kind` is ever
   * set by the crawler, so both keep their zero values.
   */
  datatype CrawlResult = CrawlResult(
    title: string,
    content: string,
    description: string,
    seeds: seq<CrawlResult>,
    tier: int,
    kind: string)

  /** The zero `CrawlResult{}`. */
  const EmptyResult := CrawlResult("", "", "", [], 0, "")

  /** An HTTP(S) seed; two seeds are equal exactly when their URLs are. */
  datatype HttpSeed = HttpSeed(url: string)

  /** Links are collected only on pages crawled at a tier below this. */
  const TierThreshold: int := 2
}
