/** One step at a time, the workers of scrapemeagain/pipeline.py: the producer (`get_html` with
    its URL generator), the collector (`collect_data`), the storer (`store_data`) and the
    watchdog (`switch_power`), all over the three queues, the three in-progress events and the
    shared counters. The databaser, the Tor IP changer and the fetch pool are observed through
    what the pipeline asks of them. */
module Pipeline {
  import opened Wrappers
  import opened Text
  import opened Http
  import opened BaseScraper

  /** The sentinel that stops every worker. */
  const EXIT := "__exit__"
  /** The sentinel that makes the producer dispatch a partial bucket. */
  const DUMP_URLS_BUCKET := "__dump_urls_bucket__"

  /** What travels on `response_queue`. */
  datatype ResponseMsg = ResponseItem(response: Response) | ResponseExit

  /** What travels on `data_queue`: the item URLs of a list page, the properties of an item, or
      the exit sentinel. */
  datatype DataMsg = ItemUrlsData(urls: seq<Record>) | ItemData(record: Record) | DataExit

  /** A call the pipeline makes on its databaser. */
  datatype DbCall = InsertMultipleCall(items: seq<Record>) | InsertCall(record: Record) | DeleteUrlCall(url: string) | CommitCall

  /** Where the producer is in one pass of the `get_html` loop: before the next round, taking
      URLs into the bucket, or done taking them. */
  datatype Phase = BetweenRounds | Collecting | Collected

  /** The settings: `workers_count` and the scraper. */
  datatype PipelineConfig = PipelineConfig(workersCount: nat, scraper: Scraper)

  /** The three queues. */
  datatype Queues = Queues(urls: seq<string>, responses: seq<ResponseMsg>, data: seq<DataMsg>)

  /** The three in-progress events. */
  datatype Events = Events(producing: bool, requesting: bool, scraping: bool)

  /** The producer's round: its `urls_bucket`, the shared `urls_bucket_empty` flag, the slots
      left in the round's `for` loop, where the round is, and the loop's `run` flag. */
  datatype Round = Round(bucket: seq<string>, urlsBucketEmpty: bool, slots: nat, phase: Phase, run: bool)

  /** Whether each worker loop still runs: collector, storer, watchdog. */
  datatype Workers = Workers(collecting: bool, storing: bool, powered: bool)

  /** What the collaborators saw: the number of `url_queue.get` calls, the batches handed to the
      fetch pool, the IP changes and the databaser calls. */
  datatype Trace = Trace(gets: nat, dispatched: seq<seq<string>>, ipChanges: nat, dbCalls: seq<DbCall>)

  /** The pipeline's state, with the URLs the generator has yet to produce and the shared
      `urls_processed` counter. */
  datatype PState = PState(queues: Queues, events: Events, generator: seq<string>, round: Round,
    urlsProcessed: nat, workers: Workers, trace: Trace)

  // ---------------------------------------------------------------------------
  // Producer

  /** One resumption of `generate_list_urls` / `generate_item_urls`: put the next
      `workers_count` URLs on `url_queue` and pause, or put what is left and end with
      `StopIteration`, which clears `producing_urls_in_progress`. */
  function GeneratorNext(s: PState, w: nat): PState {
    if w > 0 && |s.generator| >= w then
      s.(queues := s.queues.(urls := s.queues.urls + s.generator[..w]), generator := s.generator[w..])
    else
      s.(queues := s.queues.(urls := s.queues.urls + s.generator), generator := [],
         events := s.events.(producing := false))
  }

  /** The head of a round of `get_html`: resume the generator, empty the bucket, raise
      `urls_bucket_empty`. */
  function RoundStarted(s: PState, w: nat): PState {
    var g := GeneratorNext(s, w);
    g.(round := g.round.(bucket := [], urlsBucketEmpty := true, slots := w, phase := if w > 0 then Collecting else Collected))
  }

  /** One `url_queue.get()` of a round. */
  function TakeUrl(s: PState): PState
    requires s.round.phase == Collecting && s.queues.urls != [] && s.round.slots > 0
  {
    var url := s.queues.urls[0];
    var s1 := s.(queues := s.queues.(urls := s.queues.urls[1..]), trace := s.trace.(gets := s.trace.gets + 1));
    var r := s.round;
    if url == EXIT then s1.(round := r.(run := false, phase := Collected))
    else if url == DUMP_URLS_BUCKET then s1.(round := r.(phase := Collected))
    else s1.(round := r.(bucket := r.bucket + [url], urlsBucketEmpty := false, slots := r.slots - 1,
                         phase := if r.slots == 1 then Collected else Collecting))
  }

  /** The round's `for` loop as far as the queue allows: a `get` on an empty queue blocks, and
      the model stops there. */
  function Fill(s: PState): PState
    requires s.round.phase == Collecting ==> s.round.slots > 0
    decreases |s.queues.urls|
  {
    if s.round.phase == Collecting && s.queues.urls != [] then
      var s1 := TakeUrl(s);
      Fill(s1)
    else s
  }

  /** `_classify_response`: a failed response with status 408 or more sends its URL back to
      `url_queue`, every other response goes to `response_queue`. */
  function Classified(s: PState, r: Response): PState {
    if IsRetry(r.status) then s.(queues := s.queues.(urls := s.queues.urls + [r.url]))
    else s.(queues := s.queues.(responses := s.queues.responses + [ResponseItem(r)]))
  }

  function ClassifyAll(s: PState, rs: seq<Response>): PState
    decreases |rs|
  {
    if rs == [] then s else ClassifyAll(Classified(s, rs[0]), rs[1..])
  }

  /** The forwarded responses as they travel on `response_queue`. */
  function ResponseItems(rs: seq<Response>): (m: seq<ResponseMsg>)
    ensures |m| == |rs| && forall i :: 0 <= i < |rs| ==> m[i] == ResponseItem(rs[i])
  {
    if rs == [] then [] else [ResponseItem(rs[0])] + ResponseItems(rs[1..])
  }

  /** The URLs whose responses the thread pool yields when `get` raises at URL `served`, or all
      of them when `served` is at least their number. */
  function Served(urls: seq<string>, served: nat): (got: seq<string>)
    ensures |got| == (if served < |urls| then served else |urls|) && got == urls[..|got|]
  {
    if served < |urls| then urls[..served] else urls
  }

  /** `_actually_get_html`: hand the bucket to the thread pool, which `get`s every URL (`fetch`)
      and yields the responses lazily in URL order; each is classified as it comes, with
      `requesting_in_progress` set meanwhile. When `get` raises at URL `served`, the loop has
      classified the responses before it, and the raise is logged and ends the round. */
  function HtmlFetched(s: PState, urls: seq<string>, fetch: string -> Response, served: nat): PState {
    var s1 := s.(events := s.events.(requesting := true), trace := s.trace.(dispatched := s.trace.dispatched + [urls]));
    var c := ClassifyAll(s1, MapFetch(fetch, Served(urls, served)));
    c.(events := c.events.(requesting := false))
  }

  /** The tail of a round: dispatch a non-empty bucket, then change the IP unless the round read
      `EXIT`. */
  function RoundFinished(s: PState, fetch: string -> Response, served: nat): PState {
    var s1 := if s.round.bucket != [] then HtmlFetched(s, s.round.bucket, fetch, served) else s;
    var s2 := if s1.round.run then s1.(trace := s1.trace.(ipChanges := s1.trace.ipChanges + 1)) else s1;
    s2.(round := s2.round.(phase := BetweenRounds))
  }

  /** The shape of the producer's round: a bucket holds no sentinel and at most `workers_count`
      URLs, `urls_bucket_empty` says whether it is empty, and while URLs are taken the slots left
      make up the rest of the round. */
  predicate RoundShape(r: Round, w: nat) {
    (r.phase != BetweenRounds ==>
      EXIT !in r.bucket && DUMP_URLS_BUCKET !in r.bucket && |r.bucket| <= w &&
      (r.urlsBucketEmpty <==> r.bucket == [])) &&
    (r.phase == Collecting ==> r.slots > 0 && |r.bucket| + r.slots == w)
  }

  // ---------------------------------------------------------------------------
  // Collector and storer

  /** Python truthiness of extracted data: an empty list or dict is dropped. */
  predicate Truthy(d: DataMsg) {
    match d
    case ItemUrlsData(urls) => urls != []
    case ItemData(record) => record != map[]
    case DataExit => true
  }

  /** `_scrape_data`: a response whose URL contains the list template is a list page, anything
      else an item page; `None` when the extraction raised. */
  function ScrapeData(scraper: Scraper, r: Response): Option<DataMsg> {
    if Contains(r.url, scraper.listUrlTemplate) then
      match scraper.itemUrls(r) case None => None case Some(urls) => Some(ItemUrlsData(urls))
    else
      match scraper.itemProperties(r) case None => None case Some(record) => Some(ItemData(record))
  }

  /** One pass of the `collect_data` loop: stop at `EXIT`, otherwise `_actually_collect_data`,
      which forwards only truthy data and always clears `scraping_in_progress`. */
  function CollectStep(s: PState, scraper: Scraper): PState
    requires s.queues.responses != []
  {
    var q := s.queues.(responses := s.queues.responses[1..]);
    match s.queues.responses[0]
    case ResponseExit => s.(queues := q, workers := s.workers.(collecting := false))
    case ResponseItem(r) =>
      var d := ScrapeData(scraper, r);
      s.(queues := q.(data := if d.Some? && Truthy(d.value) then s.queues.data + [d.value] else s.queues.data),
         events := s.events.(scraping := false))
  }

  /** The databaser calls of `_actually_store_data` for one data unit: an empty URL list stores
      nothing; item properties are inserted only with more than one key, and their URL is then
      deleted, which raises `KeyError` (caught) when the dict has no `"url"`. */
  function StoreCalls(d: DataMsg): seq<DbCall> {
    match d
    case ItemUrlsData(urls) => if urls == [] then [] else [InsertMultipleCall(urls)]
    case ItemData(record) =>
      (if |record| > 1 then [InsertCall(record)] else []) +
      (if "url" in record then [DeleteUrlCall(record["url"])] else [])
    case DataExit => []
  }

  /** One pass of the `store_data` loop: at `EXIT` commit and stop, otherwise store the unit and
      count it processed whatever happened. */
  function StoreStep(s: PState): PState
    requires s.queues.data != []
  {
    var q := s.queues.(data := s.queues.data[1..]);
    match s.queues.data[0]
    case DataExit =>
      s.(queues := q, workers := s.workers.(storing := false), trace := s.trace.(dbCalls := s.trace.dbCalls + [CommitCall]))
    case d =>
      s.(queues := q, trace := s.trace.(dbCalls := s.trace.dbCalls + StoreCalls(d)), urlsProcessed := s.urlsProcessed + 1)
  }

  /** The storer working through the queue until it is empty or it has stopped. */
  function StoreDrain(s: PState): PState
    decreases |s.queues.data|
  {
    if s.workers.storing && s.queues.data != [] then StoreDrain(StoreStep(s)) else s
  }

  // ---------------------------------------------------------------------------
  // Watchdog

  /** `_queues_empty`. */
  predicate QueuesEmpty(s: PState) {
    s.queues.urls == [] && s.queues.responses == [] && s.queues.data == []
  }

  /** `_workers_idle`. */
  predicate WorkersIdle(s: PState) {
    !s.events.producing && !s.events.requesting && !s.events.scraping
  }

  /** `exit_workers`: one `EXIT` on each queue. */
  function WorkersExited(s: PState): PState {
    s.(queues := Queues(s.queues.urls + [EXIT], s.queues.responses + [ResponseExit], s.queues.data + [DataExit]))
  }

  /** One poll of `switch_power`. */
  function Poll(s: PState): PState {
    if QueuesEmpty(s) && WorkersIdle(s) && s.round.urlsBucketEmpty then
      var e := WorkersExited(s);
      e.(workers := e.workers.(powered := false))
    else if QueuesEmpty(s) && WorkersIdle(s) && !s.round.urlsBucketEmpty then
      s.(queues := s.queues.(urls := s.queues.urls + [DUMP_URLS_BUCKET]))
    else s
  }

  // ---------------------------------------------------------------------------
  // Lemmas: producer

  /** A response is re-queued exactly when it is a retry, and then only its URL goes back;
      otherwise it is forwarded, and nothing else changes. */
  lemma ClassifyResponseRouting(s: PState, r: Response)
    ensures var s' := Classified(s, r);
      (IsRetry(r.status) <==> s'.queues.urls == s.queues.urls + [r.url]) &&
      (IsRetry(r.status) ==> s'.queues.responses == s.queues.responses) &&
      (!IsRetry(r.status) <==> s'.queues.responses == s.queues.responses + [ResponseItem(r)]) &&
      (!IsRetry(r.status) ==> s'.queues.urls == s.queues.urls) &&
      s'.queues.data == s.queues.data && s'.(queues := s.queues) == s
  {
  }

  /** Each resumption of the generator moves URLs to `url_queue` in order, nothing lost: exactly
      `workers_count` of them while that many remain, otherwise the rest, which also clears
      `producing_urls_in_progress`. */
  lemma GeneratorNextPacing(s: PState, w: nat)
    ensures var s' := GeneratorNext(s, w);
      s'.queues.urls + s'.generator == s.queues.urls + s.generator &&
      (w > 0 && |s.generator| >= w ==> |s'.queues.urls| == |s.queues.urls| + w && s'.events == s.events) &&
      (w == 0 || |s.generator| < w ==> s'.generator == [] && !s'.events.producing)
  {
    if w > 0 && |s.generator| >= w {
      assert s.generator == s.generator[..w] + s.generator[w..];
    }
  }

  /** A round starts with an empty bucket, `urls_bucket_empty` raised and `workers_count` slots. */
  lemma StartRoundShape(s: PState, w: nat)
    ensures var s' := RoundStarted(s, w);
      RoundShape(s'.round, w) && s'.round.urlsBucketEmpty && s'.round.bucket == [] &&
      s'.round.run == s.round.run && (w > 0 <==> s'.round.phase == Collecting)
  {
  }

  lemma TakeUrlShape(s: PState, w: nat)
    requires s.round.phase == Collecting && s.queues.urls != [] && RoundShape(s.round, w)
    ensures RoundShape(TakeUrl(s).round, w)
  {
  }

  /** The round's loop keeps the bucket well-formed; it either ends the round or has emptied the
      queue and waits; the bucket only grows, by the queue's own URLs in order; `EXIT` ends the
      whole loop. */
  lemma {:induction false} FillShape(s: PState, w: nat)
    requires RoundShape(s.round, w)
    ensures var s' := Fill(s);
      RoundShape(s'.round, w) &&
      (s'.round.phase == Collecting ==> s'.queues.urls == []) &&
      (s.round.phase == Collecting ==> s'.round.phase != BetweenRounds) &&
      (s.round.phase != Collecting ==> s' == s) &&
      |s'.round.bucket| >= |s.round.bucket| && s'.round.bucket[..|s.round.bucket|] == s.round.bucket &&
      (s.round.run && !s'.round.run ==> EXIT in s.queues.urls)
    decreases |s.queues.urls|
  {
    if s.round.phase == Collecting && s.queues.urls != [] {
      TakeUrlShape(s, w);
      var s1 := TakeUrl(s);
      FillShape(s1, w);
      var s' := Fill(s1);
      assert s1.round.bucket[..|s.round.bucket|] == s.round.bucket;
      assert s'.round.bucket[..|s.round.bucket|] == s'.round.bucket[..|s1.round.bucket|][..|s.round.bucket|];
      if s.round.run && !s'.round.run && s.queues.urls[0] != EXIT {
        assert s1.round.run;
        assert s1.queues.urls == s.queues.urls[1..];
      }
    }
  }

  /** Classifying responses touches only the URL and response queues. */
  lemma {:induction false} ClassifyAllFrame(s: PState, rs: seq<Response>)
    ensures var s' := ClassifyAll(s, rs);
      s'.(queues := s.queues) == s && s'.queues.data == s.queues.data
    decreases |rs|
  {
    if rs != [] {
      ClassifyAllFrame(Classified(s, rs[0]), rs[1..]);
    }
  }

  /** Every response reaches exactly one queue: the retries' URLs are appended to `url_queue`
      and the rest to `response_queue`, both in the order the pool yields them. */
  lemma {:induction false} ClassifyAllQueues(s: PState, rs: seq<Response>)
    ensures var s' := ClassifyAll(s, rs);
      s'.queues.urls == s.queues.urls + RetryUrls(rs) &&
      s'.queues.responses == s.queues.responses + ResponseItems(Forwarded(rs)) &&
      |RetryUrls(rs)| + |Forwarded(rs)| == |rs|
  {
    RetryPartition(rs);
    ClassifyAllUrls(s, rs);
    ClassifyAllResponses(s, rs);
  }

  lemma ClassifiedQueues(s: PState, r: Response)
    ensures Classified(s, r).queues.urls == s.queues.urls + RetryUrls([r])
    ensures Classified(s, r).queues.responses == s.queues.responses + ResponseItems(Forwarded([r]))
  {
    assert [r][1..] == [];
  }

  lemma {:induction false} ClassifyAllUrls(s: PState, rs: seq<Response>)
    ensures ClassifyAll(s, rs).queues.urls == s.queues.urls + RetryUrls(rs)
    decreases |rs|
  {
    if rs != [] {
      var s1 := Classified(s, rs[0]);
      ClassifiedQueues(s, rs[0]);
      ClassifyAllUrls(s1, rs[1..]);
      assert RetryUrls(rs) == RetryUrls([rs[0]]) + RetryUrls(rs[1..]) by {
        assert [rs[0]][1..] == [];
      }
      assert s.queues.urls + RetryUrls([rs[0]]) + RetryUrls(rs[1..]) == s.queues.urls + RetryUrls(rs);
    }
  }

  lemma {:induction false} ClassifyAllResponses(s: PState, rs: seq<Response>)
    ensures ClassifyAll(s, rs).queues.responses == s.queues.responses + ResponseItems(Forwarded(rs))
    decreases |rs|
  {
    if rs != [] {
      var s1 := Classified(s, rs[0]);
      ClassifiedQueues(s, rs[0]);
      ClassifyAllResponses(s1, rs[1..]);
      var f := Forwarded(rs[1..]);
      if IsRetry(rs[0].status) {
        assert Forwarded([rs[0]]) == [];
        assert Forwarded(rs) == f;
      } else {
        assert Forwarded([rs[0]]) == [rs[0]];
        assert Forwarded(rs) == [rs[0]] + f;
        assert ([rs[0]] + f)[1..] == f;
        assert ResponseItems(Forwarded(rs)) == [ResponseItem(rs[0])] + ResponseItems(f);
      }
    }
  }

  /** Every URL whose response the pool yielded comes back exactly once: as a URL on
      `url_queue` when its response is a retry, as a response on `response_queue` otherwise,
      both in URL order. When nothing raised that is every URL of the batch; when `get` raised
      at the first URL, neither queue changes. The batch is recorded as dispatched and
      `requesting_in_progress` ends cleared; nothing else changes. */
  lemma HtmlFetchedQueues(s: PState, urls: seq<string>, fetch: string -> Response, served: nat)
    ensures var s' := HtmlFetched(s, urls, fetch, served);
      var got := Served(urls, served);
      var rs := MapFetch(fetch, got);
      s'.queues.urls == s.queues.urls + RetryUrls(rs) &&
      s'.queues.responses == s.queues.responses + ResponseItems(Forwarded(rs)) &&
      |RetryUrls(rs)| + |Forwarded(rs)| == |got| &&
      (forall i :: 0 <= i < |got| && IsRetry(fetch(urls[i]).status) ==> fetch(urls[i]).url in RetryUrls(rs)) &&
      (forall i :: 0 <= i < |got| && !IsRetry(fetch(urls[i]).status) ==> fetch(urls[i]) in Forwarded(rs)) &&
      (served >= |urls| ==> got == urls) &&
      (served == 0 ==> s'.queues == s.queues) &&
      s'.queues.data == s.queues.data &&
      s'.trace == s.trace.(dispatched := s.trace.dispatched + [urls]) && !s'.events.requesting &&
      s'.(queues := s.queues, events := s.events, trace := s.trace) == s
  {
    var got := Served(urls, served);
    var rs := MapFetch(fetch, got);
    var s1 := s.(events := s.events.(requesting := true), trace := s.trace.(dispatched := s.trace.dispatched + [urls]));
    ClassifyAllQueues(s1, rs);
    ClassifyAllFrame(s1, rs);
    RetryPartition(rs);
    forall i | 0 <= i < |got| && !IsRetry(fetch(urls[i]).status) ensures fetch(urls[i]) in Forwarded(rs) {
      assert got[i] == urls[i] && rs[i] == fetch(urls[i]);
    }
    forall i | 0 <= i < |got| && IsRetry(fetch(urls[i]).status) ensures fetch(urls[i]).url in RetryUrls(rs) {
      assert got[i] == urls[i] && rs[i] == fetch(urls[i]);
    }
    if served == 0 {
      assert rs == [];
    }
  }

  /** A round dispatches its bucket exactly once when it is not empty and never when it is, and
      changes the IP exactly when the round did not read `EXIT`. */
  lemma FinishRoundDispatch(s: PState, fetch: string -> Response, served: nat)
    ensures var s' := RoundFinished(s, fetch, served);
      (s.round.bucket != [] ==> s'.trace.dispatched == s.trace.dispatched + [s.round.bucket]) &&
      (s.round.bucket == [] ==> s'.trace.dispatched == s.trace.dispatched) &&
      s'.trace.ipChanges == s.trace.ipChanges + (if s.round.run then 1 else 0) &&
      s'.round.run == s.round.run && s'.round.phase == BetweenRounds &&
      (s.round.bucket != [] ==> !s'.events.requesting) &&
      (s.round.bucket == [] ==> s'.events == s.events)
  {
    if s.round.bucket != [] {
      HtmlFetchedQueues(s, s.round.bucket, fetch, served);
      ClassifyAllFrame(s.(events := s.events.(requesting := true), trace := s.trace.(dispatched := s.trace.dispatched + [s.round.bucket])), MapFetch(fetch, Served(s.round.bucket, served)));
    }
  }

  /** The first round of `ThreeUrlsThenExit`: three `get` calls fill the bucket, which is
      dispatched once, and the IP changes; `EXIT` and the retried URLs stay on `url_queue`. */
  lemma ThreeUrlsFirstRound(s: PState, fetch: string -> Response, served: nat)
    requires s.queues.urls == ["url1", "url2", "url3", EXIT] && s.generator == []
    requires s.round.phase == BetweenRounds && s.round.run
    requires s.trace.gets == 0 && s.trace.dispatched == [] && s.trace.ipChanges == 0
    ensures var r1 := RoundFinished(Fill(RoundStarted(s, 3)), fetch, served);
      r1.queues.urls == [EXIT] + RetryUrls(MapFetch(fetch, Served(["url1", "url2", "url3"], served))) &&
      r1.generator == [] && r1.round.run && r1.round.phase == BetweenRounds &&
      r1.trace.gets == 3 && r1.trace.dispatched == [["url1", "url2", "url3"]] && r1.trace.ipChanges == 1
  {
    var a := RoundStarted(s, 3);
    assert a.queues.urls == ["url1", "url2", "url3", EXIT];
    var b1 := TakeUrl(a);
    var b2 := TakeUrl(b1);
    var b3 := TakeUrl(b2);
    assert b3.round.phase == Collected && b3.round.bucket == ["url1", "url2", "url3"] && b3.queues.urls == [EXIT];
    assert Fill(a) == b3 by {
      assert Fill(b3) == b3;
      assert Fill(b2) == Fill(b3);
      assert Fill(b1) == Fill(b2);
    }
    HtmlFetchedQueues(b3, b3.round.bucket, fetch, served);
  }

  /** With three URLs and then `EXIT` on the queue and a bucket of three: two rounds, four
      `get` calls, one dispatch of the three URLs, one IP change, and the loop ends, leaving on
      `url_queue` only the URLs whose responses are retries (of those the pool yielded before
      `get` raised, if it did). */
  lemma ThreeUrlsThenExit(s: PState, fetch: string -> Response, served: nat)
    requires s.queues.urls == ["url1", "url2", "url3", EXIT] && s.generator == []
    requires s.round.phase == BetweenRounds && s.round.run
    requires s.trace.gets == 0 && s.trace.dispatched == [] && s.trace.ipChanges == 0
    ensures var r1 := RoundFinished(Fill(RoundStarted(s, 3)), fetch, served);
      var r2 := RoundFinished(Fill(RoundStarted(r1, 3)), fetch, served);
      r2.trace.gets == 4 && r2.trace.dispatched == [["url1", "url2", "url3"]] && r2.trace.ipChanges == 1 &&
      !r2.round.run &&
      r2.queues.urls == RetryUrls(MapFetch(fetch, Served(["url1", "url2", "url3"], served)))
  {
    var retried := RetryUrls(MapFetch(fetch, Served(["url1", "url2", "url3"], served)));
    ThreeUrlsFirstRound(s, fetch, served);
    var r1 := RoundFinished(Fill(RoundStarted(s, 3)), fetch, served);
    var c := RoundStarted(r1, 3);
    assert c.queues.urls == [EXIT] + retried;
    var d := TakeUrl(c);
    assert d.queues.urls == retried && d.round.bucket == [] && !d.round.run && d.round.phase == Collected;
    assert Fill(c) == d by {
      assert Fill(d) == d;
    }
  }

  // ---------------------------------------------------------------------------
  // Lemmas: collector and storer

  /** A response is treated as a list page exactly when its URL contains the list template; only
      truthy data reaches `data_queue`, one unit per response; `scraping_in_progress` ends
      cleared; `EXIT` stops the collector and forwards nothing. */
  lemma CollectStepRouting(s: PState, scraper: Scraper)
    requires s.queues.responses != []
    ensures var s' := CollectStep(s, scraper);
      s'.queues.responses == s.queues.responses[1..] &&
      (s.queues.responses[0] == ResponseExit ==> !s'.workers.collecting && s'.queues.data == s.queues.data) &&
      (s.queues.responses[0].ResponseItem? ==>
        var r := s.queues.responses[0].response;
        var d := ScrapeData(scraper, r);
        !s'.events.scraping && s'.workers == s.workers &&
        (d.Some? ==> (d.value.ItemUrlsData? <==> Contains(r.url, scraper.listUrlTemplate))) &&
        (s'.queues.data != s.queues.data <==> d.Some? && Truthy(d.value)) &&
        (s'.queues.data != s.queues.data ==> s'.queues.data == s.queues.data + [d.value]))
  {
  }

  function Deletes(calls: seq<DbCall>): nat {
    if calls == [] then 0 else (if calls[0].DeleteUrlCall? then 1 else 0) + Deletes(calls[1..])
  }

  function Inserts(calls: seq<DbCall>): nat {
    if calls == [] then 0 else (if calls[0].InsertCall? then 1 else 0) + Inserts(calls[1..])
  }

  /** The item records with a `"url"` key among the data units. */
  function RecordsWithUrl(ds: seq<DataMsg>): nat {
    if ds == [] then 0 else (if ds[0].ItemData? && "url" in ds[0].record then 1 else 0) + RecordsWithUrl(ds[1..])
  }

  /** The item records with more than one key among the data units. */
  function RecordsToInsert(ds: seq<DataMsg>): nat {
    if ds == [] then 0 else (if ds[0].ItemData? && |ds[0].record| > 1 then 1 else 0) + RecordsToInsert(ds[1..])
  }

  lemma {:induction false} CallCountsAppend(a: seq<DbCall>, b: seq<DbCall>)
    ensures Deletes(a + b) == Deletes(a) + Deletes(b)
    ensures Inserts(a + b) == Inserts(a) + Inserts(b)
  {
    if a == [] {
      assert a + b == b;
    } else {
      CallCountsAppend(a[1..], b);
      assert (a + b)[0] == a[0];
      assert (a + b)[1..] == a[1..] + b;
    }
  }

  /** One data unit costs exactly one `delete_url` when it is an item record with a URL, one
      `insert` when it is a record with more than one key, and nothing else of either. */
  lemma StoreCallsCount(d: DataMsg)
    ensures Deletes(StoreCalls(d)) == (if d.ItemData? && "url" in d.record then 1 else 0)
    ensures Inserts(StoreCalls(d)) == (if d.ItemData? && |d.record| > 1 then 1 else 0)
    ensures CommitCall !in StoreCalls(d)
  {
    if d.ItemData? {
      var record := d.record;
      CallCountsAppend(if |record| > 1 then [InsertCall(record)] else [],
        if "url" in record then [DeleteUrlCall(record["url"])] else []);
    }
  }

  /** Storing a queue of units without `EXIT` counts every unit processed once, deletes the URL of
      every item record once, inserts every record with more than one key once, and never
      commits. */
  lemma {:induction false} StoreDrainAccounting(s: PState)
    requires s.workers.storing && DataExit !in s.queues.data
    ensures var s' := StoreDrain(s);
      s'.workers.storing && s'.queues.data == [] &&
      s'.urlsProcessed == s.urlsProcessed + |s.queues.data| &&
      Deletes(s'.trace.dbCalls) == Deletes(s.trace.dbCalls) + RecordsWithUrl(s.queues.data) &&
      Inserts(s'.trace.dbCalls) == Inserts(s.trace.dbCalls) + RecordsToInsert(s.queues.data) &&
      |s'.trace.dbCalls| >= |s.trace.dbCalls| && s'.trace.dbCalls[..|s.trace.dbCalls|] == s.trace.dbCalls &&
      CommitCall !in s'.trace.dbCalls[|s.trace.dbCalls|..]
    decreases |s.queues.data|
  {
    if s.queues.data != [] {
      var d := s.queues.data[0];
      var s1 := StoreStep(s);
      assert d != DataExit;
      assert s1.queues.data == s.queues.data[1..];
      assert s1.trace.dbCalls == s.trace.dbCalls + StoreCalls(d);
      StoreCallsCount(d);
      CallCountsAppend(s.trace.dbCalls, StoreCalls(d));
      StoreDrainAccounting(s1);
      var s' := StoreDrain(s1);
      var a, b, c := s.trace.dbCalls, StoreCalls(d), s'.trace.dbCalls[|s1.trace.dbCalls|..];
      assert s'.trace.dbCalls == a + b + c by {
        assert s'.trace.dbCalls == s'.trace.dbCalls[..|s1.trace.dbCalls|] + c;
      }
      assert s'.trace.dbCalls[|a|..] == b + c;
      assert s'.trace.dbCalls[..|a|] == a;
    }
  }

  // ---------------------------------------------------------------------------
  // Lemmas: watchdog

  /** A poll stops the watchdog exactly when queues are empty, workers idle and the bucket empty,
      and then puts one `EXIT` on each queue; it puts a single `DUMP_URLS_BUCKET` when only the
      bucket holds URLs; otherwise it changes nothing. */
  lemma PollDecision(s: PState)
    requires s.workers.powered
    ensures var s' := Poll(s);
      (QueuesEmpty(s) && WorkersIdle(s) && s.round.urlsBucketEmpty <==> !s'.workers.powered)
    ensures var s' := Poll(s);
      (QueuesEmpty(s) && WorkersIdle(s) && s.round.urlsBucketEmpty ==>
        s'.queues == Queues([EXIT], [ResponseExit], [DataExit])) &&
      (QueuesEmpty(s) && WorkersIdle(s) && !s.round.urlsBucketEmpty ==>
        s'.queues == Queues([DUMP_URLS_BUCKET], [], []) && s'.workers == s.workers) &&
      (!(QueuesEmpty(s) && WorkersIdle(s)) ==> s' == s)
  {
  }

  /** After the watchdog exits the workers while the producer waits for URLs, the next step of
      each worker reads `EXIT`: the producer's loop ends without dispatching or changing the IP,
      the collector stops, and the storer commits once and stops. */
  lemma ExitStopsEveryWorker(s: PState, w: nat, scraper: Scraper, fetch: string -> Response, served: nat)
    requires s.workers.powered && QueuesEmpty(s) && WorkersIdle(s) && s.round.urlsBucketEmpty
    requires s.round.phase == Collecting && RoundShape(s.round, w) && s.round.run
    ensures var e := Poll(s);
      var p := RoundFinished(Fill(e), fetch, served);
      !p.round.run && p.trace.dispatched == s.trace.dispatched && p.trace.ipChanges == s.trace.ipChanges &&
      p.queues.urls == [] &&
      !CollectStep(e, scraper).workers.collecting && CollectStep(e, scraper).queues.data == [DataExit] &&
      var t := StoreStep(e);
      !t.workers.storing && t.trace.dbCalls == s.trace.dbCalls + [CommitCall] && t.urlsProcessed == s.urlsProcessed
  {
    var e := Poll(s);
    assert e.queues.urls == [EXIT];
    var f := TakeUrl(e);
    assert Fill(f) == f;
    assert f.round.bucket == [];
  }

  /** When the producer holds a partial bucket and everything else is quiet, the poll's
      `DUMP_URLS_BUCKET` ends the round, the bucket is dispatched as it is, and the IP changes. */
  lemma DumpFlushesBucket(s: PState, w: nat, fetch: string -> Response, served: nat)
    requires s.workers.powered && QueuesEmpty(s) && WorkersIdle(s)
    requires s.round.phase == Collecting && RoundShape(s.round, w) && s.round.bucket != [] && s.round.run
    ensures var f := Fill(Poll(s));
      f.round.phase == Collected && f.round.bucket == s.round.bucket && f.round.run &&
      var p := RoundFinished(f, fetch, served);
      p.trace.dispatched == s.trace.dispatched + [s.round.bucket] && p.trace.ipChanges == s.trace.ipChanges + 1
  {
    var e := Poll(s);
    assert e.queues.urls == [DUMP_URLS_BUCKET];
    var f := TakeUrl(e);
    assert Fill(f) == f;
    FinishRoundDispatch(f, fetch, served);
  }

  /** If the watchdog polls before `get_html` has raised `producing_urls_in_progress`, it exits the
      workers at once: the producer's first round reads `EXIT` ahead of every generated URL and
      nothing is ever requested. */
  lemma EarlyPollEndsRun(s: PState, w: nat, fetch: string -> Response, served: nat)
    requires s.workers.powered && QueuesEmpty(s) && WorkersIdle(s) && s.round.urlsBucketEmpty
    requires s.round.phase == BetweenRounds && w > 0
    ensures var p0 := Poll(s);
      var e := p0.(events := p0.events.(producing := true), round := p0.round.(run := true));
      var p := RoundFinished(Fill(RoundStarted(e, w)), fetch, served);
      !p.round.run && p.trace.dispatched == s.trace.dispatched && p.trace.ipChanges == s.trace.ipChanges
  {
    var p0 := Poll(s);
    var e := p0.(events := p0.events.(producing := true), round := p0.round.(run := true));
    var a := RoundStarted(e, w);
    assert a.queues.urls[0] == EXIT;
    var f := TakeUrl(a);
    assert Fill(f) == f;
  }

  // ---------------------------------------------------------------------------
  // The pipeline object

  /** The pipeline's shared state: the queues, the in-progress events and `urls_processed` as
      the processes share them, the producer's generator and round, the worker loops, and the
      trace of what the collaborators were asked to do. */
  class Pipeline {
    const cfg: PipelineConfig
    var queues: Queues
    var events: Events
    var generator: seq<string>
    var round: Round
    var urlsProcessed: nat
    var workers: Workers
    var trace: Trace

    function State(): PState
      reads this
    {
      PState(queues, events, generator, round, urlsProcessed, workers, trace)
    }

    predicate Valid()
      reads this
    {
      RoundShape(round, cfg.workersCount)
    }

    /** `prepare_pipeline` and `run`: empty queues, cleared events, `urls_bucket_empty` at 1, the
        three worker loops started, and the URLs the generator will produce. */
    constructor (cfg: PipelineConfig, urls: seq<string>)
      ensures Valid() && this.cfg == cfg
      ensures State() == PState(Queues([], [], []), Events(false, false, false), urls,
        Round([], true, 0, BetweenRounds, true), 0, Workers(true, true, true), Trace(0, [], 0, []))
    {
      this.cfg := cfg;
      queues := Queues([], [], []);
      events := Events(false, false, false);
      generator := urls;
      round := Round([], true, 0, BetweenRounds, true);
      urlsProcessed := 0;
      workers := Workers(true, true, true);
      trace := Trace(0, [], 0, []);
    }

    /** The start of `get_html`. */
    method StartGetHtml()
      requires Valid() && round.phase == BetweenRounds
      modifies this
      ensures Valid()
      ensures State() == old(State()).(events := old(events).(producing := true), round := old(round).(run := true))
    {
      events := events.(producing := true);
      round := round.(run := true);
    }

    /** `next(urls_generator)`, with `StopIteration` caught. */
    method NextUrls()
      modifies this
      ensures State() == GeneratorNext(old(State()), cfg.workersCount)
    {
      ghost var g0 := generator;
      ghost var q0 := queues.urls;
      var putUrls := 0;
      while generator != []
        invariant 0 <= putUrls <= |g0|
        invariant cfg.workersCount == 0 || putUrls < cfg.workersCount
        invariant queues == old(queues).(urls := q0 + g0[..putUrls]) && generator == g0[putUrls..]
        invariant unchanged(`events, `round, `urlsProcessed, `workers, `trace)
        decreases |generator|
      {
        assert g0[..putUrls + 1] == g0[..putUrls] + [generator[0]];
        queues := queues.(urls := queues.urls + [generator[0]]);
        generator := generator[1..];
        putUrls := putUrls + 1;
        if putUrls == cfg.workersCount {
          return;
        }
      }
      assert g0[..putUrls] == g0;
      events := events.(producing := false);
    }

    method StartRound()
      requires Valid() && round.phase == BetweenRounds && round.run
      modifies this
      ensures Valid() && State() == RoundStarted(old(State()), cfg.workersCount)
    {
      NextUrls();
      round := round.(bucket := [], urlsBucketEmpty := true, slots := cfg.workersCount,
        phase := if cfg.workersCount > 0 then Collecting else Collected);
    }

    /** One `url_queue.get()` of the round. */
    method TakeNextUrl()
      requires Valid() && round.phase == Collecting && queues.urls != []
      modifies this
      ensures Valid() && State() == TakeUrl(old(State()))
    {
      TakeUrlShape(State(), cfg.workersCount);
      var url := queues.urls[0];
      queues := queues.(urls := queues.urls[1..]);
      trace := trace.(gets := trace.gets + 1);
      if url == EXIT {
        round := round.(run := false, phase := Collected);
      } else if url == DUMP_URLS_BUCKET {
        round := round.(phase := Collected);
      } else {
        round := round.(bucket := round.bucket + [url], urlsBucketEmpty := false, slots := round.slots - 1);
        if round.slots == 0 {
          round := round.(phase := Collected);
        }
      }
    }

    /** The `for` loop of a round, until the round ends or the queue is empty. */
    method FillBucket()
      requires Valid()
      modifies this
      ensures Valid() && State() == Fill(old(State()))
    {
      while round.phase == Collecting && queues.urls != []
        invariant Valid()
        invariant Fill(old(State())) == Fill(State())
        decreases |queues.urls|
      {
        TakeNextUrl();
      }
    }

    method ClassifyResponse(r: Response)
      modifies this
      ensures State() == Classified(old(State()), r)
    {
      if IsRetry(r.status) {
        queues := queues.(urls := queues.urls + [r.url]);
      } else {
        queues := queues.(responses := queues.responses + [ResponseItem(r)]);
      }
    }

    /** `_actually_get_html`; `fetch` is `get` as the pool's threads run it, and `served` the
        index of the URL at which it raises (at least `|urls|` when it never does). */
    method ActuallyGetHtml(urls: seq<string>, fetch: string -> Response, served: nat)
      modifies this
      ensures State() == HtmlFetched(old(State()), urls, fetch, served)
    {
      events := events.(requesting := true);
      trace := trace.(dispatched := trace.dispatched + [urls]);
      ghost var responses := MapFetch(fetch, Served(urls, served));
      ghost var start := State();
      for k := 0 to |urls|
        invariant k <= |responses| && events.requesting
        invariant ClassifyAll(start, responses) == ClassifyAll(State(), responses[k..])
      {
        if k >= served {
          break;
        }
        assert responses[k..][1..] == responses[k + 1..];
        ClassifyResponse(fetch(urls[k]));
      }
      assert ClassifyAll(State(), []) == State();
      events := events.(requesting := false);
    }

    /** `change_ip`: one new IP from the Tor IP changer, retried until it succeeds. */
    method ChangeIp()
      modifies this
      ensures State() == old(State()).(trace := old(trace).(ipChanges := old(trace).ipChanges + 1))
    {
      trace := trace.(ipChanges := trace.ipChanges + 1);
    }

    method FinishRound(fetch: string -> Response, served: nat)
      requires Valid() && round.phase == Collected
      modifies this
      ensures Valid() && State() == RoundFinished(old(State()), fetch, served)
    {
      if round.bucket != [] {
        ActuallyGetHtml(round.bucket, fetch, served);
      }
      if round.run {
        ChangeIp();
      }
      round := round.(phase := BetweenRounds);
    }

    /** One pass of the `collect_data` loop. */
    method CollectNext()
      requires Valid() && workers.collecting && queues.responses != []
      modifies this
      ensures Valid() && State() == CollectStep(old(State()), cfg.scraper)
    {
      var msg := queues.responses[0];
      queues := queues.(responses := queues.responses[1..]);
      match msg {
        case ResponseExit =>
          workers := workers.(collecting := false);
        case ResponseItem(r) =>
          events := events.(scraping := true);
          var data := ScrapeData(cfg.scraper, r);
          if data.Some? && Truthy(data.value) {
            queues := queues.(data := queues.data + [data.value]);
          }
          events := events.(scraping := false);
      }
    }

    /** One pass of the `store_data` loop. */
    method StoreNext()
      requires Valid() && workers.storing && queues.data != []
      modifies this
      ensures Valid() && State() == StoreStep(old(State()))
    {
      var data := queues.data[0];
      queues := queues.(data := queues.data[1..]);
      if data == DataExit {
        trace := trace.(dbCalls := trace.dbCalls + [CommitCall]);
        workers := workers.(storing := false);
        return;
      }
      trace := trace.(dbCalls := trace.dbCalls + StoreCalls(data));
      urlsProcessed := urlsProcessed + 1;
    }

    method ExitWorkers()
      modifies this
      ensures State() == WorkersExited(old(State()))
    {
      queues := Queues(queues.urls + [EXIT], queues.responses + [ResponseExit], queues.data + [DataExit]);
    }

    /** One poll of `switch_power`. */
    method SwitchPowerPoll()
      requires Valid() && workers.powered
      modifies this
      ensures Valid() && State() == Poll(old(State()))
    {
      var queuesEmpty := queues.urls == [] && queues.responses == [] && queues.data == [];
      var workersIdle := !events.producing && !events.requesting && !events.scraping;
      if queuesEmpty && workersIdle && round.urlsBucketEmpty {
        ExitWorkers();
        workers := workers.(powered := false);
        return;
      }
      if queuesEmpty && workersIdle && !round.urlsBucketEmpty {
        queues := queues.(urls := queues.urls + [DUMP_URLS_BUCKET]);
      }
    }
  }
}
