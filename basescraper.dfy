/** The scraper interface of scrapemeagain/scrapers/basescraper.py. */
module BaseScraper {
  import opened Wrappers
  import opened Http
  import UrlBrokers

  /** A scraped record: a Python dict from column names to values. */
  type Record = map<string, string>

  /** The site-specific part of a scraper as the pipeline uses it: the template that marks a
      list page URL, and the two extractions, each of which may raise (`None`). */
  datatype Scraper = Scraper(
    listUrlTemplate: string,
    itemUrls: Response -> Option<seq<Record>>,
    itemProperties: Response -> Option<Record>)

  /** `list_urls_count`: the size of `list_urls_range`, whichever way round it is. */
  function ListUrlsCount(range: UrlBrokers.UrlsRange): (n: nat)
  {
    if range.0 >= range.1 then range.0 - range.1 else range.1 - range.0
  }

  /** The count is the number of pages in the range, is the same for a descending broker range
      and its ascending twin, and is 0 for the exhausted broker's `(0, 0)`. */
  lemma ListUrlsCountProperties(range: UrlBrokers.UrlsRange)
    ensures ListUrlsCount(range) == ListUrlsCount(UrlBrokers.Orient(range, false))
    ensures range.1 <= range.0 ==> ListUrlsCount(range) == range.0 - range.1
    ensures ListUrlsCount((0, 0)) == 0
  {
  }

  function TotalCount(rs: seq<UrlBrokers.UrlsRange>): nat {
    if rs == [] then 0 else ListUrlsCount(rs[0]) + TotalCount(rs[1..])
  }

  /** The scrapers that receive a tiling of `[0, count)` from the broker count `count` list
      pages between them. */
  lemma {:induction false} TilingCounts(rs: seq<UrlBrokers.UrlsRange>, hi: int)
    requires UrlBrokers.Tiles(rs, hi)
    ensures TotalCount(rs) == hi
    decreases |rs|
  {
    if rs != [] {
      TilingCounts(rs[1..], rs[0].1);
    }
  }
}
