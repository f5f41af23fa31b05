/** What the workers see of an HTTP exchange. */
module Http {

  /** The parts of an HTML page the scrapers read: the `href` of the link inside each `h3`
      heading the scraper selects, and the text of each `h1`, in page order. */
  datatype Page = Page(h3Links: seq<string>, h1Texts: seq<string>)

  /** A response: the final URL, the status code and the parsed page. */
  datatype Response = Response(url: string, status: int, page: Page)

  /** `requests.Response.ok`: `raise_for_status` raises only for 4xx and 5xx codes. */
  predicate Ok(status: int) {
    !(400 <= status < 600)
  }

  /** The retry rule shared by the pipeline and the multiprocess factories: a failed response
      with a status of 408 or more is fetched again. */
  predicate IsRetry(status: int) {
    !Ok(status) && status >= 408
  }

  /** `pool.map(get, urls)`: one response per URL, in the order of the URLs. */
  function MapFetch(fetch: string -> Response, urls: seq<string>): (rs: seq<Response>)
    ensures |rs| == |urls| && forall i :: 0 <= i < |urls| ==> rs[i] == fetch(urls[i])
  {
    if urls == [] then [] else [fetch(urls[0])] + MapFetch(fetch, urls[1..])
  }

  /** The URLs of the responses that are fetched again, in response order. */
  function RetryUrls(rs: seq<Response>): seq<string> {
    if rs == [] then [] else (if IsRetry(rs[0].status) then [rs[0].url] else []) + RetryUrls(rs[1..])
  }

  /** The responses that are not fetched again, in response order. */
  function Forwarded(rs: seq<Response>): seq<Response> {
    if rs == [] then [] else (if IsRetry(rs[0].status) then [] else [rs[0]]) + Forwarded(rs[1..])
  }

  /** Every response is either fetched again or forwarded, never both and never neither: the
      forwarded ones are exactly the responses that are not retries. */
  lemma {:induction false} RetryPartition(rs: seq<Response>)
    ensures |RetryUrls(rs)| + |Forwarded(rs)| == |rs|
    ensures forall r :: r in Forwarded(rs) <==> r in rs && !IsRetry(r.status)
    ensures forall i :: 0 <= i < |rs| && IsRetry(rs[i].status) ==> rs[i].url in RetryUrls(rs)
  {
    if rs != [] {
      RetryPartition(rs[1..]);
      assert rs == [rs[0]] + rs[1..];
      forall i | 0 < i < |rs| && IsRetry(rs[i].status) ensures rs[i].url in RetryUrls(rs) {
        assert rs[1..][i - 1] == rs[i];
      }
    }
  }

  /** Exactly the statuses 408 to 599 are retried; 400 to 407 are failures that are not. */
  lemma IsRetryRange(status: int)
    ensures IsRetry(status) <==> 408 <= status < 600
    ensures !Ok(status) && !IsRetry(status) <==> 400 <= status < 408
  {
  }
}
