/** The pipeline of examples/examplescraper2/custom_pipeline.py: a scraper of a JSON API that
    changes the IP only when the API reports its query limit exhausted, and otherwise works
    the responses like the base pipeline. */
module CustomPipeline {
  import opened Wrappers
  import opened BaseScraper
  import opened Pipeline

  /** The API status that asks for a new IP. */
  const QUERY_LIMIT_EXHAUSTED := "QUERY_LIMIT_EXHAUSTED"

  /** The requests per round the target API allows from one IP. */
  const API_WORKERS_COUNT: nat := 5

  /** The decoded JSON of an API response: its `"status"` and its `"target_data"`. */
  datatype ApiJson = ApiJson(status: string, targetData: Option<Record>)

  /** A response of the API: the request URL and its decoded JSON. */
  datatype ApiResponse = ApiResponse(url: string, json: ApiJson)

  /** What the overridden steps touch: `url_queue`, `response_queue` (pairs of URL and JSON),
      the `change_ip_now` event, the IP changes asked of the Tor IP changer, and the databaser
      calls. */
  datatype CState = CState(urls: seq<string>, responses: seq<ApiResponse>, changeIpNow: bool,
    ipChanges: nat, dbCalls: seq<DbCall>)

  /** `change_ip`: rotate only when `change_ip_now` is set, clearing it first. */
  function IpChangeDecided(s: CState): CState {
    if s.changeIpNow then s.(changeIpNow := false, ipChanges := s.ipChanges + 1) else s
  }

  /** `_classify_response`: an exhausted query limit raises `change_ip_now` and re-queues the
      URL; any other status forwards the URL with the decoded JSON. */
  function ApiClassified(s: CState, r: ApiResponse): CState {
    if r.json.status == QUERY_LIMIT_EXHAUSTED then
      s.(changeIpNow := true, urls := s.urls + [r.url])
    else
      s.(responses := s.responses + [r])
  }

  /** `_scrape_data`: no `target_data`, no data; otherwise `target_data` with `"url"` set to the
      request URL. */
  function ScrapeApiData(r: ApiResponse): (d: Option<Record>)
    ensures d.None? <==> r.json.targetData.None?
    ensures d.Some? ==> "url" in d.value && d.value["url"] == r.url && |d.value| >= 1
    ensures d.Some? ==> forall k :: k in r.json.targetData.value && k != "url" ==>
      k in d.value && d.value[k] == r.json.targetData.value[k]
    ensures d.Some? ==> d.value.Keys == r.json.targetData.value.Keys + {"url"}
  {
    match r.json.targetData
    case None => None
    case Some(target) => Some(target["url" := r.url])
  }

  /** `_store_item_properties`: nothing for `None`, the base pipeline's calls otherwise. */
  function ItemPropertiesCalls(data: Option<Record>): seq<DbCall> {
    match data
    case None => []
    case Some(record) => StoreCalls(ItemData(record))
  }

  // ---------------------------------------------------------------------------
  // Lemmas

  /** The IP rotates exactly when `change_ip_now` was set, and the flag is clear afterwards;
      the queues are not touched. */
  lemma ChangeIpOnlyWhenFlagged(s: CState)
    ensures var s' := IpChangeDecided(s);
      !s'.changeIpNow && (s'.ipChanges == s.ipChanges + 1 <==> s.changeIpNow) &&
      (!s.changeIpNow ==> s'.ipChanges == s.ipChanges) &&
      s'.urls == s.urls && s'.responses == s.responses && s'.dbCalls == s.dbCalls
  {
  }

  /** An exhausted limit sets `change_ip_now` and re-queues only the URL; any other status
      forwards the pair and leaves `url_queue` and the flag alone. */
  lemma ApiClassifyRouting(s: CState, r: ApiResponse)
    ensures var s' := ApiClassified(s, r);
      (r.json.status == QUERY_LIMIT_EXHAUSTED ==>
        s'.changeIpNow && s'.urls == s.urls + [r.url] && s'.responses == s.responses) &&
      (r.json.status != QUERY_LIMIT_EXHAUSTED ==>
        s'.changeIpNow == s.changeIpNow && s'.urls == s.urls && s'.responses == s.responses + [r]) &&
      s'.ipChanges == s.ipChanges && s'.dbCalls == s.dbCalls
  {
  }

  /** A round whose responses include an exhausted limit ends with one IP change, one whose
      responses do not changes nothing (the flag was clear before it). */
  lemma {:induction false} ExhaustedRoundRotatesOnce(s: CState, rs: seq<ApiResponse>)
    requires !s.changeIpNow
    ensures var s' := IpChangeDecided(ApiClassifyAll(s, rs));
      s'.ipChanges == s.ipChanges + (if exists i :: 0 <= i < |rs| && rs[i].json.status == QUERY_LIMIT_EXHAUSTED then 1 else 0) &&
      !s'.changeIpNow
  {
    ApiClassifyAllFlag(s, rs);
  }

  /** Every response of a round, classified in order. */
  function ApiClassifyAll(s: CState, rs: seq<ApiResponse>): CState
    decreases |rs|
  {
    if rs == [] then s else ApiClassifyAll(ApiClassified(s, rs[0]), rs[1..])
  }

  /** After a round, `change_ip_now` is set exactly when it was before or some response reported
      the limit exhausted; the IP changes are untouched meanwhile. */
  lemma {:induction false} ApiClassifyAllFlag(s: CState, rs: seq<ApiResponse>)
    ensures var s' := ApiClassifyAll(s, rs);
      (s'.changeIpNow <==> s.changeIpNow || exists i :: 0 <= i < |rs| && rs[i].json.status == QUERY_LIMIT_EXHAUSTED) &&
      s'.ipChanges == s.ipChanges
    decreases |rs|
  {
    if rs != [] {
      var s1 := ApiClassified(s, rs[0]);
      ApiClassifyAllFlag(s1, rs[1..]);
      if exists i :: 0 <= i < |rs[1..]| && rs[1..][i].json.status == QUERY_LIMIT_EXHAUSTED {
        var i :| 0 <= i < |rs[1..]| && rs[1..][i].json.status == QUERY_LIMIT_EXHAUSTED;
        assert rs[i + 1].json.status == QUERY_LIMIT_EXHAUSTED;
      }
      if exists i :: 0 <= i < |rs| && rs[i].json.status == QUERY_LIMIT_EXHAUSTED {
        var i :| 0 <= i < |rs| && rs[i].json.status == QUERY_LIMIT_EXHAUSTED;
        if i > 0 {
          assert rs[1..][i - 1].json.status == QUERY_LIMIT_EXHAUSTED;
        }
      }
    }
  }

  /** Whatever the API sent, scraped data always carries its URL, so storing it always deletes
      that URL once; `None` stores nothing. */
  lemma ItemPropertiesCallsShape(r: ApiResponse)
    ensures var d := ScrapeApiData(r);
      (d.None? ==> ItemPropertiesCalls(d) == []) &&
      (d.Some? ==> Deletes(ItemPropertiesCalls(d)) == 1 && DeleteUrlCall(r.url) in ItemPropertiesCalls(d)) &&
      (d.Some? ==> (InsertCall(d.value) in ItemPropertiesCalls(d) <==> |d.value| > 1))
  {
    var d := ScrapeApiData(r);
    if d.Some? {
      StoreCallsCount(ItemData(d.value));
      var ins := if |d.value| > 1 then [InsertCall(d.value)] else [];
      assert ItemPropertiesCalls(d) == ins + [DeleteUrlCall(r.url)];
    }
  }

  // ---------------------------------------------------------------------------
  // The pipeline object

  /** `ExhaustApiLimitPipeLine`, with the steps it overrides. */
  class ExhaustApiLimitPipeline {
    const workersCount: nat
    var urlQueue: seq<string>
    var responseQueue: seq<ApiResponse>
    var changeIpNow: bool
    var ipChanges: nat
    var dbCalls: seq<DbCall>

    function State(): CState
      reads this
    {
      CState(urlQueue, responseQueue, changeIpNow, ipChanges, dbCalls)
    }

    /** `prepare_pipeline`: the event is created clear and the batch size fixed at 5. */
    constructor ()
      ensures workersCount == API_WORKERS_COUNT
      ensures State() == CState([], [], false, 0, [])
    {
      workersCount := API_WORKERS_COUNT;
      urlQueue, responseQueue := [], [];
      changeIpNow := false;
      ipChanges := 0;
      dbCalls := [];
    }

    method ChangeIp()
      modifies this
      ensures State() == IpChangeDecided(old(State()))
    {
      if changeIpNow {
        changeIpNow := false;
        ipChanges := ipChanges + 1;
      }
    }

    method ClassifyResponse(r: ApiResponse)
      modifies this
      ensures State() == ApiClassified(old(State()), r)
    {
      if r.json.status == QUERY_LIMIT_EXHAUSTED {
        if !changeIpNow {
          changeIpNow := true;
        }
        urlQueue := urlQueue + [r.url];
      } else {
        responseQueue := responseQueue + [r];
      }
    }

    method StoreItemProperties(data: Option<Record>)
      modifies this
      ensures State() == old(State()).(dbCalls := old(dbCalls) + ItemPropertiesCalls(data))
    {
      if data.None? {
        return;
      }
      dbCalls := dbCalls + StoreCalls(ItemData(data.value));
    }
  }
}
