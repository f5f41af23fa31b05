/** The example scraper of examples/examplescraper/scraper.py, for the bundled example site. */
module ExampleScraper {
  import opened Wrappers
  import opened Text
  import opened Http
  import opened BaseScraper
  import UrlBrokers

  const BaseUrl := "http://localhost:9090/posts/"
  const ListUrlTemplate := "?page="
  /** `ExampleScraper.list_urls_range`: the first ten list pages. */
  const DefaultListUrlsRange: UrlBrokers.UrlsRange := (10, 0)

  /** `_format_list_url`. */
  function FormatListUrl(n: int): string {
    BaseUrl + ListUrlTemplate + IntToString(n)
  }

  /** `generate_list_urls`: page numbers from `start` down to `end + 1`. */
  function ListUrls(range: UrlBrokers.UrlsRange): seq<string>
    decreases range.0 - range.1
  {
    if range.0 <= range.1 then [] else [FormatListUrl(range.0)] + ListUrls((range.0 - 1, range.1))
  }

  /** `start - end` URLs when `start > end`, none otherwise; the `k`-th is for page `start - k`. */
  lemma {:induction false} ListUrlsShape(range: UrlBrokers.UrlsRange)
    ensures |ListUrls(range)| == if range.0 > range.1 then range.0 - range.1 else 0
    ensures forall k :: 0 <= k < |ListUrls(range)| ==> ListUrls(range)[k] == FormatListUrl(range.0 - k)
    decreases range.0 - range.1
  {
    if range.0 > range.1 {
      ListUrlsShape((range.0 - 1, range.1));
      var us := ListUrls(range);
      var tail := ListUrls((range.0 - 1, range.1));
      forall k | 0 <= k < |us| ensures us[k] == FormatListUrl(range.0 - k) {
        if k > 0 {
          assert us[k] == tail[k - 1];
        }
      }
    }
  }

  /** Every list URL carries the list template, so the pipeline treats its response as a list page;
      distinct pages have distinct URLs. */
  lemma FormatListUrlProperties(n: int, m: int)
    ensures Contains(FormatListUrl(n), ListUrlTemplate)
    ensures FormatListUrl(n) == FormatListUrl(m) ==> n == m
  {
    ContainsInfix(BaseUrl, ListUrlTemplate, IntToString(n));
    if FormatListUrl(n) == FormatListUrl(m) {
      var p := BaseUrl + ListUrlTemplate;
      assert FormatListUrl(n)[|p|..] == IntToString(n);
      assert FormatListUrl(m)[|p|..] == IntToString(m);
      IntToStringInjective(n, m);
    }
  }

  /** The default range gives the ten pages 10, 9, ..., 1. */
  lemma DefaultListUrls()
    ensures |ListUrls(DefaultListUrlsRange)| == 10
    ensures forall k :: 0 <= k < 10 ==> ListUrls(DefaultListUrlsRange)[k] == FormatListUrl(10 - k)
  {
    ListUrlsShape(DefaultListUrlsRange);
  }

  /** Two adjacent ranges generate, one after the other, the URLs of their union. */
  lemma {:induction false} ListUrlsConcat(a: int, b: int, c: int)
    requires a >= b >= c
    ensures ListUrls((a, b)) + ListUrls((b, c)) == ListUrls((a, c))
    decreases a - b
  {
    if a > b {
      ListUrlsConcat(a - 1, b, c);
    }
  }

  function AllListUrls(rs: seq<UrlBrokers.UrlsRange>): seq<string> {
    if rs == [] then [] else ListUrls(rs[0]) + AllListUrls(rs[1..])
  }

  /** When the broker's ranges tile `[0, count)` and each dockerized scraper generates the list
      URLs of its range, together they generate pages `count` down to 1, each exactly once and
      in order. */
  lemma {:induction false} TilingGeneratesAllPages(rs: seq<UrlBrokers.UrlsRange>, hi: int)
    requires UrlBrokers.Tiles(rs, hi)
    ensures AllListUrls(rs) == ListUrls((hi, 0))
    decreases |rs|
  {
    if rs != [] {
      TilingGeneratesAllPages(rs[1..], rs[0].1);
      UrlBrokers.TilesBelow(rs[1..], rs[0].1);
      ListUrlsConcat(hi, rs[0].1, 0);
    }
  }

  /** `get_item_urls` of one page: one `{"url": href}` per `h3`, in page order. */
  function ItemUrls(hrefs: seq<string>): seq<Record>
  {
    if hrefs == [] then [] else [map["url" := hrefs[0]]] + ItemUrls(hrefs[1..])
  }

  /** The loop of `get_item_urls`. */
  method GetItemUrls(response: Response) returns (links: seq<Record>)
    ensures links == ItemUrls(response.page.h3Links)
    ensures |links| == |response.page.h3Links|
    ensures forall k :: 0 <= k < |links| ==> links[k] == map["url" := response.page.h3Links[k]]
  {
    links := [];
    var k := 0;
    var hrefs := response.page.h3Links;
    while k < |hrefs|
      invariant 0 <= k <= |hrefs|
      invariant |links| == k
      invariant forall j :: 0 <= j < k ==> links[j] == map["url" := hrefs[j]]
      invariant ItemUrls(hrefs) == links + ItemUrls(hrefs[k..])
    {
      links := links + [map["url" := hrefs[k]]];
      assert hrefs[k..][1..] == hrefs[k + 1..];
      k := k + 1;
    }
  }

  /** `get_item_properties`: the response URL, and the first `h1` when there is one. */
  function ItemProperties(response: Response): (p: Record)
  {
    var base := map["url" := response.url];
    if response.page.h1Texts == [] then base else base["h1" := response.page.h1Texts[0]]
  }

  /** The record always holds the URL the pipeline deletes, holds `h1` exactly when the page has a
      header, and nothing else. */
  lemma ItemPropertiesShape(response: Response)
    ensures var p := ItemProperties(response);
      p["url"] == response.url &&
      ("h1" in p <==> response.page.h1Texts != []) &&
      ("h1" in p ==> p["h1"] == response.page.h1Texts[0]) &&
      p.Keys <= {"url", "h1"} &&
      |p| == if response.page.h1Texts == [] then 1 else 2
  {
    var p := ItemProperties(response);
    if response.page.h1Texts != [] {
      assert p.Keys == {"url", "h1"};
    } else {
      assert p.Keys == {"url"};
    }
  }

  /** The example scraper as the pipeline calls it; its extractions do not raise on the
      abstracted page. */
  function Capability(): Scraper {
    Scraper(ListUrlTemplate, (r: Response) => Some(ItemUrls(r.page.h3Links)), (r: Response) => Some(ItemProperties(r)))
  }

  /** `DockerizedExampleScraper`: the list range comes from the controller, once. */
  class DockerizedExampleScraper {
    /** `_list_urls_range`, absent until the first access. */
    var listUrlsRange: Option<UrlBrokers.UrlsRange>
    /** How many times the controller has been asked. */
    var controllerRequests: nat

    predicate Valid()
      reads this
    {
      controllerRequests == (if listUrlsRange.Some? then 1 else 0)
    }

    constructor ()
      ensures Valid() && listUrlsRange == None
    {
      listUrlsRange := None;
      controllerRequests := 0;
    }

    /** The `list_urls_range` property; `fromController` is what the controller would answer. */
    method ListUrlsRange(fromController: UrlBrokers.UrlsRange) returns (range: UrlBrokers.UrlsRange)
      requires Valid()
      modifies this
      ensures Valid() && controllerRequests <= 1
      ensures old(listUrlsRange) == None ==> range == fromController && controllerRequests == 1
      ensures old(listUrlsRange).Some? ==> range == old(listUrlsRange).value && unchanged(this)
      ensures listUrlsRange == Some(range)
    {
      if listUrlsRange.None? {
        listUrlsRange := Some(fromController);
        controllerRequests := controllerRequests + 1;
      }
      range := listUrlsRange.value;
    }
  }
}
