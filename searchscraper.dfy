/** The search-results example scraper of scrapemeagain/scrapers/examplescraper/scraper.py. */
module SearchExampleScraper {
  import opened Wrappers
  import opened Text
  import opened Http
  import opened BaseScraper

  const UrlQuery := "/url?q="
  const BaseUrl := "https://www.google.com/"
  const ListUrlTemplate := "search?q=rock&start="

  /** `get_lists_count`. */
  function GetListsCount(): nat {
    110
  }

  /** `range(i, hi, step)` for a positive step. */
  function Range(i: nat, hi: nat, step: nat): seq<nat>
    requires step > 0
    decreases hi - i
  {
    if i >= hi then [] else [i] + Range(i + step, hi, step)
  }

  /** `generate_list_urls`: one URL per result offset `0, 10, ..., < get_lists_count()`. */
  function ListUrls(): seq<string> {
    var offsets := Range(0, GetListsCount(), 10);
    seq(|offsets|, k requires 0 <= k < |offsets| => BaseUrl + ListUrlTemplate + NatToString(offsets[k]))
  }

  lemma {:induction false} RangeShape(i: nat, hi: nat, step: nat, n: nat)
    requires step > 0 && i + n * step >= hi && (n == 0 || i + (n - 1) * step < hi)
    ensures |Range(i, hi, step)| == n
    ensures forall k :: 0 <= k < n ==> Range(i, hi, step)[k] == i + k * step
    decreases n
  {
    if n > 0 {
      RangeShape(i + step, hi, step, n - 1);
      var rs := Range(i, hi, step);
      forall k | 0 <= k < n ensures rs[k] == i + k * step {
        if k > 0 {
          assert rs[k] == Range(i + step, hi, step)[k - 1];
        }
      }
    }
  }

  /** Eleven list URLs, for the offsets 0, 10, ..., 100. */
  lemma ListUrlsShape()
    ensures |ListUrls()| == 11
    ensures forall k :: 0 <= k < 11 ==> ListUrls()[k] == BaseUrl + ListUrlTemplate + NatToString(10 * k)
  {
    RangeShape(0, 110, 10, 11);
  }

  /** `href.split('&')[0]`: the part before the first `'&'`. */
  function BeforeAmpersand(href: string): (r: string)
    ensures r <= href && '&' !in r
    ensures |r| < |href| ==> href[|r|] == '&'
  {
    if href == [] || href[0] == '&' then [] else [href[0]] + BeforeAmpersand(href[1..])
  }

  /** The record for one result link: a `"url"` only for a direct link marked by `/url?q=`, with
      every occurrence of the marker removed; an empty record otherwise. */
  function LinkData(href: string): Record {
    var url := BeforeAmpersand(href);
    if StartsWith(url, UrlQuery) then map["url" := ReplaceAll(url, UrlQuery, "")] else map[]
  }

  /** `get_item_urls` of one page: one record per selected heading, in page order. */
  function ItemUrls(hrefs: seq<string>): (links: seq<Record>)
    ensures |links| == |hrefs|
  {
    if hrefs == [] then [] else [LinkData(hrefs[0])] + ItemUrls(hrefs[1..])
  }

  /** The loop of `get_item_urls`. */
  method GetItemUrls(response: Response) returns (links: seq<Record>)
    ensures links == ItemUrls(response.page.h3Links)
  {
    links := [];
    var k := 0;
    var hrefs := response.page.h3Links;
    while k < |hrefs|
      invariant 0 <= k <= |hrefs|
      invariant ItemUrls(hrefs) == links + ItemUrls(hrefs[k..])
    {
      var url := BeforeAmpersand(hrefs[k]);
      var urlData: Record := map[];
      if StartsWith(url, UrlQuery) {
        urlData := urlData["url" := ReplaceAll(url, UrlQuery, "")];
      }
      links := links + [urlData];
      assert hrefs[k..][1..] == hrefs[k + 1..];
      k := k + 1;
    }
  }

  /** Entry `k` is for the `k`-th heading; it has a URL exactly when the link before its first
      `'&'` starts with the marker, and then the URL is that link without the marker when the
      marker does not recur; the URL never holds an `'&'`. */
  lemma {:induction false} ItemUrlsShape(hrefs: seq<string>, k: nat)
    requires k < |hrefs|
    ensures var d := ItemUrls(hrefs)[k]; var url := BeforeAmpersand(hrefs[k]);
      ("url" in d <==> StartsWith(url, UrlQuery)) &&
      d.Keys <= {"url"} &&
      ("url" in d && !Contains(url[|UrlQuery|..], UrlQuery) ==> d["url"] == url[|UrlQuery|..])
    decreases k
  {
    if k > 0 {
      ItemUrlsShape(hrefs[1..], k - 1);
    } else {
      var url := BeforeAmpersand(hrefs[0]);
      if StartsWith(url, UrlQuery) && !Contains(url[|UrlQuery|..], UrlQuery) {
        ReplaceAllLeading(url, UrlQuery);
      }
    }
  }

  /** `get_item_properties`: the response URL, and the first `h1` when there is one. */
  function ItemProperties(response: Response): Record {
    var base := map["url" := response.url];
    if response.page.h1Texts == [] then base else base["h1" := response.page.h1Texts[0]]
  }

  lemma ItemPropertiesShape(response: Response)
    ensures var p := ItemProperties(response);
      p["url"] == response.url && ("h1" in p <==> response.page.h1Texts != []) && p.Keys <= {"url", "h1"}
  {
  }

  function Capability(): Scraper {
    Scraper(ListUrlTemplate, (r: Response) => Some(ItemUrls(r.page.h3Links)), (r: Response) => Some(ItemProperties(r)))
  }
}
