/** The producer-consumer factories of scrapemeagain/mprocess.py and of its older generation
    scripts/mprocess.py: batching targets for the request pool, re-queueing failed requests,
    the ad insert/update/delete decision, the geocoding cache store, and the transaction counter
    behind every commit. The databasers are observed through the calls the factories make and
    the answers they give (`is_stored`, whether an ad is newer than the stored one). */
module MProcess {
  import opened Wrappers
  import opened Http
  import opened BaseScraper

  /** Which file: scrapemeagain/mprocess.py or scripts/mprocess.py. */
  datatype Generation = Current | Scripts

  /** `AdsFactory` or `GeocodingFactory`. */
  datatype Factory = AdsFactory | GeocodingFactory

  /** The `scraping` attribute of `AdsFactory`: unset, `CATALOGS` or `ADS`. */
  datatype Scraping = NotScraping | Catalogs | Ads

  /** A `data_q` item: a list (the ad URLs of a catalog) or a dict (an ad, or a location). */
  datatype QueueItem = ItemList(items: seq<Record>) | ItemDict(record: Record)

  /** What `create_databaser` returns. */
  datatype DatabaserKind = AdsDatabaser | GeoDatabaser

  /** The `ValueError`s of `create_databaser`; `named` is the value its message shows. */
  datatype DatabaserError = TypeNotSet | UnsupportedType(named: Option<string>)

  /** A call on a databaser. */
  datatype DbOp =
    | InsertUrls(items: seq<Record>)
    | DeleteAd(adId: string)
    | InsertAd(record: Record)
    | UpdateAd(record: Record)
    | DeleteAdUrl(adId: string)
    | CompleteRecord(record: Record)
    | InsertLocation(record: Record)
    | Commit

  /** The extraction the scraper provides; `None` when it raised. */
  datatype AdsScraper = AdsScraper(adProperties: Response -> Option<Record>, catalogAds: Response -> Option<seq<Record>>)

  const ADS := "ads"
  const GEO := "geo"

  /** The transaction sizes handed to `commit_checker`. */
  function UrlsTransactionSize(gen: Generation): nat {
    match gen
    case Current => 10000
    case Scripts => 5000
  }
  const ADS_TRANSACTION_SIZE: nat := 2000
  const GEO_TRANSACTION_SIZE: nat := 100

  /** The state the factory's steps change: the three queues, the two events, the transaction
      counter, `old_ads_count`, the IP changes asked for, and the databaser calls. */
  datatype MState = MState(targets: seq<string>, responses: seq<seq<Response>>, data: seq<QueueItem>,
    changeIp: bool, stopRequesting: bool, transactionItems: nat, oldAdsCount: nat, ipChanges: nat,
    dbCalls: seq<DbOp>)

  // ---------------------------------------------------------------------------
  // create_databaser

  /** `create_databaser` as written: the argument falls back to the factory's own type, and the
      message for an unknown type names the factory's own type. */
  function CreateDatabaser(arg: Option<string>, own: Option<string>): Result<DatabaserKind, DatabaserError> {
    var t := if arg.None? then own else arg;
    if t.None? then Err(TypeNotSet)
    else if t.value == ADS then Ok(AdsDatabaser)
    else if t.value == GEO then Ok(GeoDatabaser)
    else Err(UnsupportedType(own))
  }

  /** `create_databaser` with the message naming the type that was rejected. */
  function CreateDatabaserCorrected(arg: Option<string>, own: Option<string>): Result<DatabaserKind, DatabaserError> {
    var t := if arg.None? then own else arg;
    if t.None? then Err(TypeNotSet)
    else if t.value == ADS then Ok(AdsDatabaser)
    else if t.value == GEO then Ok(GeoDatabaser)
    else Err(UnsupportedType(t))
  }

  /** Which databaser is made: `ValueError` exactly when neither the argument nor the factory
      names a type, or the one in force is neither `'ads'` nor `'geo'`; the corrected message
      names the type in force, and otherwise both agree. */
  lemma CreateDatabaserDispatch(arg: Option<string>, own: Option<string>)
    ensures var t := if arg.None? then own else arg;
      var r := CreateDatabaserCorrected(arg, own);
      (r == Err(TypeNotSet) <==> t.None?) &&
      (r == Ok(AdsDatabaser) <==> t == Some(ADS)) &&
      (r == Ok(GeoDatabaser) <==> t == Some(GEO)) &&
      (r.Err? && r.error.UnsupportedType? ==> r.error.named == t && t.Some? && t.value != ADS && t.value != GEO) &&
      (CreateDatabaser(arg, own).Ok? <==> r.Ok?) &&
      (r.Ok? ==> CreateDatabaser(arg, own) == r)
  {
  }

  /** As written, an explicit unknown type on a factory whose own type is `'ads'` is reported
      as the unsupported type `"ads"`. */
  lemma CreateDatabaserNamesWrongType()
    ensures CreateDatabaser(Some("xyz"), Some(ADS)) == Err(UnsupportedType(Some(ADS)))
    ensures CreateDatabaserCorrected(Some("xyz"), Some(ADS)) == Err(UnsupportedType(Some("xyz")))
  {
  }

  // ---------------------------------------------------------------------------
  // commit_checker

  /** How much a queue item adds to the transaction: its length for a list, 1 otherwise. */
  function Weight(item: QueueItem): nat {
    match item
    case ItemList(items) => |items|
    case ItemDict(_) => 1
  }

  /** `commit_checker`: add the item's weight; at `transaction_size` or more reset the counter to 0
      and commit once. */
  function CommitChecked(s: MState, item: QueueItem, size: nat): MState {
    var t := s.transactionItems + Weight(item);
    if t >= size then s.(transactionItems := 0, dbCalls := s.dbCalls + [Commit])
    else s.(transactionItems := t)
  }

  /** The counter either grows by the item's weight without a commit, or reaches the size and
      commits exactly once and resets; a counter below a positive size stays below it. */
  lemma CommitCheckerEffect(s: MState, item: QueueItem, size: nat)
    ensures var s' := CommitChecked(s, item, size);
      (s.transactionItems + Weight(item) >= size <==> s'.dbCalls == s.dbCalls + [Commit]) &&
      (s.transactionItems + Weight(item) >= size ==> s'.transactionItems == 0) &&
      (s.transactionItems + Weight(item) < size ==> s'.transactionItems == s.transactionItems + Weight(item) && s'.dbCalls == s.dbCalls) &&
      (size > 0 ==> s'.transactionItems < size) &&
      s'.(transactionItems := s.transactionItems, dbCalls := s.dbCalls) == s
  {
  }

  /** Items committed one after another: the counter ends below the size and the number of
      commits plus what is left uncommitted, in units of the size, accounts for every item. */
  function CommitAll(s: MState, items: seq<QueueItem>, size: nat): MState
    decreases |items|
  {
    if items == [] then s else CommitAll(CommitChecked(s, items[0], size), items[1..], size)
  }

  function Commits(calls: seq<DbOp>): nat {
    if calls == [] then 0 else (if calls[0] == Commit then 1 else 0) + Commits(calls[1..])
  }

  function TotalWeight(items: seq<QueueItem>): nat {
    if items == [] then 0 else Weight(items[0]) + TotalWeight(items[1..])
  }

  lemma {:induction false} CommitsAppend(a: seq<DbOp>, b: seq<DbOp>)
    ensures Commits(a + b) == Commits(a) + Commits(b)
  {
    if a == [] {
      assert a + b == b;
    } else {
      CommitsAppend(a[1..], b);
      assert (a + b)[0] == a[0];
      assert (a + b)[1..] == a[1..] + b;
    }
  }

  /** Committing items one after another: the counter stays below the size, only commits are
      added, and no commit happens exactly when the pending weight stays below the size, in
      which case the counter holds all of it. */
  lemma {:induction false} CommitAllAccounting(s: MState, items: seq<QueueItem>, size: nat)
    requires size > 0 && s.transactionItems < size
    ensures var s' := CommitAll(s, items, size);
      s'.transactionItems < size &&
      Commits(s'.dbCalls) >= Commits(s.dbCalls) && |s'.dbCalls| - |s.dbCalls| == Commits(s'.dbCalls) - Commits(s.dbCalls) &&
      (Commits(s'.dbCalls) == Commits(s.dbCalls) <==> s.transactionItems + TotalWeight(items) < size) &&
      (s.transactionItems + TotalWeight(items) < size ==> s'.transactionItems == s.transactionItems + TotalWeight(items))
    decreases |items|
  {
    if items != [] {
      var s1 := CommitChecked(s, items[0], size);
      if s.transactionItems + Weight(items[0]) >= size {
        CommitsAppend(s.dbCalls, [Commit]);
        assert Commits([Commit]) == 1;
      }
      CommitAllAccounting(s1, items[1..], size);
    }
  }

  // ---------------------------------------------------------------------------
  // produce_data

  /** The targets one round of `produce_data` takes: up to `processes`, fewer when `target_q`
      runs empty. */
  function Batch(targets: seq<string>, processes: nat): (b: seq<string>)
    ensures |b| <= processes && |b| <= |targets| && b == targets[..|b|]
    ensures |b| == processes || b == targets
  {
    if |targets| <= processes then targets else targets[..processes]
  }

  /** `manage_ip` of each factory: the current ads factory changes the IP after every batch
      with `change_ip_e` raised meanwhile, the older one just changes it; the geocoding factory
      changes it only when `change_ip_e` is set, and clears it. */
  function IpManaged(s: MState, factory: Factory, gen: Generation): MState {
    match factory
    case AdsFactory =>
      if gen == Current then s.(ipChanges := s.ipChanges + 1, changeIp := false)
      else s.(ipChanges := s.ipChanges + 1)
    case GeocodingFactory =>
      if s.changeIp then s.(ipChanges := s.ipChanges + 1, changeIp := false) else s
  }

  /** One pass of the `produce_data` loop: an empty batch sleeps; otherwise manage the IP and
      put the pool's responses, in target order, on `responses_q` unless the pool raised. */
  function ProduceRound(s: MState, factory: Factory, gen: Generation, processes: nat,
      fetch: string -> Response, poolFails: bool): MState {
    var b := Batch(s.targets, processes);
    if b == [] then s
    else
      var m := IpManaged(s.(targets := s.targets[|b|..]), factory, gen);
      if poolFails then m else m.(responses := m.responses + [MapFetch(fetch, b)])
  }

  /** A round takes the first `min(processes, |target_q|)` targets; with none it changes
      nothing and never touches the IP; otherwise it manages the IP once and queues one
      response per target, in order. */
  lemma ProduceRoundShape(s: MState, factory: Factory, gen: Generation, processes: nat,
      fetch: string -> Response, poolFails: bool)
    ensures var s' := ProduceRound(s, factory, gen, processes, fetch, poolFails);
      var b := Batch(s.targets, processes);
      (b == [] <==> processes == 0 || s.targets == []) &&
      (b == [] ==> s' == s) &&
      (b != [] ==> (s.targets == b + s'.targets &&
        s'.ipChanges == IpManaged(s, factory, gen).ipChanges &&
        (poolFails ==> s'.responses == s.responses) &&
        (!poolFails ==> (|s'.responses| == |s.responses| + 1 && |s'.responses[|s.responses|]| == |b| &&
          forall i :: 0 <= i < |b| ==> s'.responses[|s.responses|][i] == fetch(s.targets[i]))))) &&
      s'.data == s.data && s'.dbCalls == s.dbCalls
  {
    var b := Batch(s.targets, processes);
    if b != [] {
      assert s.targets == b + s.targets[|b|..];
    }
  }

  /** The ads factory changes the IP before every non-empty batch; the geocoding factory only
      when the limit was reported, and then clears the report. */
  lemma ManageIpRotation(s: MState, factory: Factory, gen: Generation)
    ensures var s' := IpManaged(s, factory, gen);
      (factory == AdsFactory ==> s'.ipChanges == s.ipChanges + 1) &&
      (factory == AdsFactory && gen == Current ==> !s'.changeIp) &&
      (factory == AdsFactory && gen == Scripts ==> s'.changeIp == s.changeIp) &&
      (factory == GeocodingFactory ==> (s'.ipChanges == s.ipChanges + 1 <==> s.changeIp) && !s'.changeIp) &&
      (factory == GeocodingFactory && !s.changeIp ==> s' == s)
  {
  }

  // ---------------------------------------------------------------------------
  // AdsFactory.collect_data

  /** What scraping one response gives: nothing when the extraction raised or `scraping` is
      unset (the unbound `data` raises too). */
  function ScrapedAd(scraping: Scraping, scraper: AdsScraper, r: Response): Option<QueueItem> {
    match scraping
    case NotScraping => None
    case Ads => (match scraper.adProperties(r) case None => None case Some(d) => Some(ItemDict(d)))
    case Catalogs => (match scraper.catalogAds(r) case None => None case Some(l) => Some(ItemList(l)))
  }

  /** One response of `collect_data`: a failed request with status 408 or more goes back to
      `target_q` as its URL; anything else is scraped, and what scraping gives goes to `data_q`,
      empty or not. */
  function AdCollected(s: MState, scraping: Scraping, scraper: AdsScraper, r: Response): MState {
    if IsRetry(r.status) then s.(targets := s.targets + [r.url])
    else
      match ScrapedAd(scraping, scraper, r)
      case None => s
      case Some(d) => s.(data := s.data + [d])
  }

  function AdsCollected(s: MState, scraping: Scraping, scraper: AdsScraper, rs: seq<Response>): MState
    decreases |rs|
  {
    if rs == [] then s else AdsCollected(AdCollected(s, scraping, scraper, rs[0]), scraping, scraper, rs[1..])
  }

  /** What one response contributes to `data_q`. */
  function ScrapedOf(scraping: Scraping, scraper: AdsScraper, r: Response): seq<QueueItem> {
    if !IsRetry(r.status) && ScrapedAd(scraping, scraper, r).Some? then [ScrapedAd(scraping, scraper, r).value] else []
  }

  function ScrapedItems(scraping: Scraping, scraper: AdsScraper, rs: seq<Response>): seq<QueueItem> {
    if rs == [] then [] else ScrapedOf(scraping, scraper, rs[0]) + ScrapedItems(scraping, scraper, rs[1..])
  }

  /** Collecting a list of responses appends the URLs of the retried ones to `target_q` and the
      scraped data of the others to `data_q`, both in response order.
      A failed response below 408 is scraped like a good one. */
  lemma {:induction false} AdsCollectedQueues(s: MState, scraping: Scraping, scraper: AdsScraper, rs: seq<Response>)
    ensures var s' := AdsCollected(s, scraping, scraper, rs);
      s'.targets == s.targets + RetryUrls(rs) && s'.data == s.data + ScrapedItems(scraping, scraper, rs)
  {
    AdsCollectedTargets(s, scraping, scraper, rs);
    AdsCollectedData(s, scraping, scraper, rs);
  }

  lemma {:induction false} AdsCollectedTargets(s: MState, scraping: Scraping, scraper: AdsScraper, rs: seq<Response>)
    ensures AdsCollected(s, scraping, scraper, rs).targets == s.targets + RetryUrls(rs)
    decreases |rs|
  {
    if rs != [] {
      var s1 := AdCollected(s, scraping, scraper, rs[0]);
      var retry := if IsRetry(rs[0].status) then [rs[0].url] else [];
      AdCollectedQueues(s, scraping, scraper, rs[0]);
      AdsCollectedTargets(s1, scraping, scraper, rs[1..]);
      assert s.targets + retry + RetryUrls(rs[1..]) == s.targets + RetryUrls(rs);
    }
  }

  lemma {:induction false} AdsCollectedData(s: MState, scraping: Scraping, scraper: AdsScraper, rs: seq<Response>)
    ensures AdsCollected(s, scraping, scraper, rs).data == s.data + ScrapedItems(scraping, scraper, rs)
    decreases |rs|
  {
    if rs != [] {
      var s1 := AdCollected(s, scraping, scraper, rs[0]);
      var item := ScrapedOf(scraping, scraper, rs[0]);
      AdCollectedQueues(s, scraping, scraper, rs[0]);
      AdsCollectedData(s1, scraping, scraper, rs[1..]);
      assert s.data + item + ScrapedItems(scraping, scraper, rs[1..]) == s.data + ScrapedItems(scraping, scraper, rs);
    }
  }

  /** Collecting touches nothing but the two queues. */
  lemma {:induction false} AdsCollectedFrame(s: MState, scraping: Scraping, scraper: AdsScraper, rs: seq<Response>)
    ensures AdsCollected(s, scraping, scraper, rs).(targets := s.targets, data := s.data) == s
    decreases |rs|
  {
    if rs != [] {
      AdsCollectedFrame(AdCollected(s, scraping, scraper, rs[0]), scraping, scraper, rs[1..]);
    }
  }

  /** One response adds its URL to `target_q` when retried, else its scraped data, if any, to
      `data_q`. */
  lemma AdCollectedQueues(s: MState, scraping: Scraping, scraper: AdsScraper, r: Response)
    ensures var s' := AdCollected(s, scraping, scraper, r);
      s'.targets == s.targets + (if IsRetry(r.status) then [r.url] else []) &&
      s'.data == s.data + ScrapedOf(scraping, scraper, r)
  {
  }

  /** A response is retried exactly when it failed with status 408 or more. */
  lemma AdCollectedRouting(s: MState, scraping: Scraping, scraper: AdsScraper, r: Response)
    ensures var s' := AdCollected(s, scraping, scraper, r);
      (IsRetry(r.status) <==> s'.targets == s.targets + [r.url]) &&
      (IsRetry(r.status) ==> s'.data == s.data) &&
      (!IsRetry(r.status) && ScrapedAd(scraping, scraper, r).None? ==> s'.targets == s.targets && s'.data == s.data) &&
      (!IsRetry(r.status) && ScrapedAd(scraping, scraper, r).Some? ==>
        s'.targets == s.targets && s'.data == s.data + [ScrapedAd(scraping, scraper, r).value])
  {
  }

  // ---------------------------------------------------------------------------
  // AdsFactory.store_data

  /** `_add_location` of the current generation: merge the cached location of a new ad. */
  function WithLocation(gen: Generation, record: Record, location: Option<Record>): Record {
    if gen == Current && location.Some? then record + location.value else record
  }

  /** `AdsFactory.store_data`, with the databaser's answers: whether the ad is stored, whether
      its `last_update` is later than the stored one, and the cached location of its address.
      A missing `'ad_id'` or `'last_update'` raises `KeyError`, which `consume_data` swallows
      before any call is made. */
  function AdsStored(s: MState, gen: Generation, item: QueueItem, stored: bool, newer: bool,
      location: Option<Record>, oldItemsThreshold: int): MState {
    match item
    case ItemList(items) =>
      CommitChecked(s.(dbCalls := s.dbCalls + [InsertUrls(items)]), item, UrlsTransactionSize(gen))
    case ItemDict(record) =>
      if "ad_id" !in record then s
      else if |record| != 1 && stored && "last_update" !in record then s
      else
        var adId := record["ad_id"];
        var decided :=
          if |record| == 1 then (if stored then s.(dbCalls := s.dbCalls + [DeleteAd(adId)]) else s)
          else if !stored then s.(dbCalls := s.dbCalls + [InsertAd(WithLocation(gen, record, location))])
          else if newer then s.(dbCalls := s.dbCalls + [UpdateAd(record)])
          else
            var n := s.oldAdsCount + 1;
            s.(oldAdsCount := n, stopRequesting := s.stopRequesting || n > oldItemsThreshold);
        CommitChecked(decided.(dbCalls := decided.dbCalls + [DeleteAdUrl(adId)]), item, ADS_TRANSACTION_SIZE)
  }

  /** The decision for one ad: an ad with only its id is deleted if stored; an unseen ad is
      inserted; a stored ad is updated when newer, and otherwise counts as old, which stops the
      requests once the count passes the threshold. Exactly one of these happens, then the ad's
      URL row is deleted and the counter checked against 2000. */
  lemma AdsStoreDecision(s: MState, gen: Generation, record: Record, stored: bool, newer: bool,
      location: Option<Record>, oldItemsThreshold: int)
    requires "ad_id" in record && (|record| != 1 && stored ==> "last_update" in record)
    ensures var s' := AdsStored(s, gen, ItemDict(record), stored, newer, location, oldItemsThreshold);
      var adId := record["ad_id"];
      var op := if |record| == 1 then (if stored then [DeleteAd(adId)] else [])
        else if !stored then [InsertAd(WithLocation(gen, record, location))]
        else if newer then [UpdateAd(record)] else [];
      var oldAd := |record| != 1 && stored && !newer;
      var t := s.transactionItems + 1;
      s'.dbCalls == s.dbCalls + op + [DeleteAdUrl(adId)] + (if t >= ADS_TRANSACTION_SIZE then [Commit] else []) &&
      s'.oldAdsCount == s.oldAdsCount + (if oldAd then 1 else 0) &&
      (s'.stopRequesting <==> s.stopRequesting || (oldAd && s.oldAdsCount + 1 > oldItemsThreshold)) &&
      s'.transactionItems == (if t >= ADS_TRANSACTION_SIZE then 0 else t) &&
      s'.targets == s.targets && s'.data == s.data
  {
  }

  /** A list of ad URLs is inserted in one call and weighs its length against 10000 (current)
      or 5000 (older generation). */
  lemma AdsStoreUrls(s: MState, gen: Generation, items: seq<Record>, stored: bool, newer: bool,
      location: Option<Record>, oldItemsThreshold: int)
    ensures var s' := AdsStored(s, gen, ItemList(items), stored, newer, location, oldItemsThreshold);
      var t := s.transactionItems + |items|;
      s'.dbCalls == s.dbCalls + [InsertUrls(items)] + (if t >= UrlsTransactionSize(gen) then [Commit] else []) &&
      s'.transactionItems == (if t >= UrlsTransactionSize(gen) then 0 else t) &&
      s'.oldAdsCount == s.oldAdsCount && s'.stopRequesting == s.stopRequesting
  {
  }

  /** A dict without `'ad_id'`, or a stored ad without `'last_update'`, changes nothing. */
  lemma AdsStoreKeyError(s: MState, gen: Generation, record: Record, stored: bool, newer: bool,
      location: Option<Record>, oldItemsThreshold: int)
    requires "ad_id" !in record || (|record| != 1 && stored && "last_update" !in record)
    ensures AdsStored(s, gen, ItemDict(record), stored, newer, location, oldItemsThreshold) == s
  {
  }

  // ---------------------------------------------------------------------------
  // GeocodingFactory.store_data, consume_data's end

  /** `GeocodingFactory.store_data`: a completion record loses its `'completion'` key and
      completes the stored record; any other location is inserted unless cached; the counter is
      checked against 100 either way. */
  function GeoStored(s: MState, record: Record, stored: bool): MState {
    var s1 :=
      if "completion" in record then s.(dbCalls := s.dbCalls + [CompleteRecord(record - {"completion"})])
      else if !stored then s.(dbCalls := s.dbCalls + [InsertLocation(record)])
      else s;
    CommitChecked(s1, ItemDict(record), GEO_TRANSACTION_SIZE)
  }

  lemma GeoStoreDecision(s: MState, record: Record, stored: bool)
    ensures var s' := GeoStored(s, record, stored);
      var op := if "completion" in record then [CompleteRecord(record - {"completion"})]
        else if !stored then [InsertLocation(record)] else [];
      var t := s.transactionItems + 1;
      s'.dbCalls == s.dbCalls + op + (if t >= GEO_TRANSACTION_SIZE then [Commit] else []) &&
      (forall c :: c in op && c.CompleteRecord? ==> "completion" !in c.record) &&
      s'.transactionItems == (if t >= GEO_TRANSACTION_SIZE then 0 else t)
  {
  }

  /** The end of `consume_data`: commit what is left; the current generation also resets the
      counter. */
  function ConsumeEnded(s: MState, gen: Generation): MState {
    if s.transactionItems > 0 then
      s.(dbCalls := s.dbCalls + [Commit], transactionItems := if gen == Current then 0 else s.transactionItems)
    else s
  }

  /** A final commit happens exactly when items are pending; afterwards the current generation's
      counter is 0, while the older one keeps counting the committed items. */
  lemma ConsumeEndCommit(s: MState, gen: Generation)
    ensures var s' := ConsumeEnded(s, gen);
      (s'.dbCalls == s.dbCalls + [Commit] <==> s.transactionItems > 0) &&
      (s.transactionItems == 0 ==> s' == s) &&
      (gen == Current ==> s'.transactionItems == 0) &&
      (gen == Scripts ==> s'.transactionItems == s.transactionItems)
  {
  }

  // ---------------------------------------------------------------------------
  // The factory object

  /** `ProducerConsumer` with the parts of `AdsFactory` and `GeocodingFactory` above. */
  class ProducerConsumer {
    const gen: Generation
    const factory: Factory
    const processes: nat
    const oldItemsThreshold: int
    var targetQ: seq<string>
    var responsesQ: seq<seq<Response>>
    var dataQ: seq<QueueItem>
    var changeIpE: bool
    var stopRequestingE: bool
    var transactionItems: nat
    var oldAdsCount: nat
    var ipChanges: nat
    var dbCalls: seq<DbOp>

    function State(): MState
      reads this
    {
      MState(targetQ, responsesQ, dataQ, changeIpE, stopRequestingE, transactionItems, oldAdsCount, ipChanges, dbCalls)
    }

    constructor (gen: Generation, factory: Factory, processes: nat, oldItemsThreshold: int)
      ensures this.gen == gen && this.factory == factory && this.processes == processes
      ensures this.oldItemsThreshold == oldItemsThreshold
      ensures State() == MState([], [], [], false, false, 0, 0, 0, [])
    {
      this.gen, this.factory, this.processes, this.oldItemsThreshold := gen, factory, processes, oldItemsThreshold;
      targetQ, responsesQ, dataQ := [], [], [];
      changeIpE, stopRequestingE := false, false;
      transactionItems, oldAdsCount, ipChanges := 0, 0, 0;
      dbCalls := [];
    }

    method CommitChecker(item: QueueItem, transactionSize: nat)
      modifies this
      ensures State() == CommitChecked(old(State()), item, transactionSize)
    {
      match item {
        case ItemList(items) => transactionItems := transactionItems + |items|;
        case ItemDict(_) => transactionItems := transactionItems + 1;
      }
      if transactionItems >= transactionSize {
        transactionItems := 0;
        dbCalls := dbCalls + [Commit];
      }
    }

    /** `empty_queues`: drain every queue; `removed` says how many items each held. */
    method EmptyQueues() returns (removed: (nat, nat, nat))
      modifies this
      ensures State() == old(State()).(targets := [], responses := [], data := [])
      ensures removed == (|old(targetQ)|, |old(responsesQ)|, |old(dataQ)|)
    {
      var items := 0;
      while targetQ != []
        invariant items + |targetQ| == |old(targetQ)|
        invariant State() == old(State()).(targets := targetQ)
        decreases |targetQ|
      {
        targetQ := targetQ[1..];
        items := items + 1;
      }
      var responseItems := 0;
      while responsesQ != []
        invariant responseItems + |responsesQ| == |old(responsesQ)|
        invariant State() == old(State()).(targets := [], responses := responsesQ)
        decreases |responsesQ|
      {
        responsesQ := responsesQ[1..];
        responseItems := responseItems + 1;
      }
      var dataItems := 0;
      while dataQ != []
        invariant dataItems + |dataQ| == |old(dataQ)|
        invariant State() == old(State()).(targets := [], responses := [], data := dataQ)
        decreases |dataQ|
      {
        dataQ := dataQ[1..];
        dataItems := dataItems + 1;
      }
      removed := (items, responseItems, dataItems);
    }

    method ManageIp()
      modifies this
      ensures State() == IpManaged(old(State()), factory, gen)
    {
      match factory {
        case AdsFactory =>
          if gen == Current {
            changeIpE := true;
          }
          ipChanges := ipChanges + 1;
          if gen == Current {
            changeIpE := false;
          }
        case GeocodingFactory =>
          if changeIpE {
            ipChanges := ipChanges + 1;
            changeIpE := false;
          }
      }
    }

    /** The batching loop of `produce_data`: take targets until `processes` are taken or
        `target_q` is empty. */
    method TakeBatch() returns (targets: seq<string>)
      modifies this
      ensures targets == Batch(old(targetQ), processes)
      ensures State() == old(State()).(targets := old(targetQ)[|targets|..])
    {
      targets := [];
      for k := 0 to processes
        invariant |targets| <= k && targets + targetQ == old(targetQ)
        invariant |targets| < k ==> targetQ == []
        invariant State() == old(State()).(targets := targetQ)
      {
        if targetQ == [] {
          break;
        }
        targets := targets + [targetQ[0]];
        targetQ := targetQ[1..];
      }
      assert old(targetQ)[..|targets|] == targets;
      assert old(targetQ)[|targets|..] == targetQ;
    }

    /** One pass of the `produce_data` loop; `fetch` is the requester and `poolFails` says
        whether `pool.map` raised. */
    method ProduceDataRound(fetch: string -> Response, poolFails: bool)
      modifies this
      ensures State() == ProduceRound(old(State()), factory, gen, processes, fetch, poolFails)
    {
      var targets := TakeBatch();
      if targets == [] {
        return;
      }
      ManageIp();
      if poolFails {
        return;
      }
      responsesQ := responsesQ + [MapFetch(fetch, targets)];
    }

    /** `AdsFactory.collect_data` for one item of `responses_q`. */
    method CollectAds(scraping: Scraping, scraper: AdsScraper, responses: seq<Response>)
      modifies this
      ensures State() == AdsCollected(old(State()), scraping, scraper, responses)
    {
      ghost var start := State();
      for k := 0 to |responses|
        invariant AdsCollected(start, scraping, scraper, responses) == AdsCollected(State(), scraping, scraper, responses[k..])
      {
        assert responses[k..][1..] == responses[k + 1..];
        var response := responses[k];
        if IsRetry(response.status) {
          targetQ := targetQ + [response.url];
          continue;
        }
        var data := ScrapedAd(scraping, scraper, response);
        if data.Some? {
          dataQ := dataQ + [data.value];
        }
      }
    }

    /** `AdsFactory.store_data`. */
    method StoreAd(item: QueueItem, stored: bool, newer: bool, location: Option<Record>)
      modifies this
      ensures State() == AdsStored(old(State()), gen, item, stored, newer, location, oldItemsThreshold)
    {
      match item {
        case ItemList(items) =>
          dbCalls := dbCalls + [InsertUrls(items)];
          CommitChecker(item, UrlsTransactionSize(gen));
        case ItemDict(record) =>
          if "ad_id" !in record {
            return;
          }
          var adId := record["ad_id"];
          if |record| == 1 {
            if stored {
              dbCalls := dbCalls + [DeleteAd(adId)];
            }
          } else if !stored {
            dbCalls := dbCalls + [InsertAd(WithLocation(gen, record, location))];
          } else {
            if "last_update" !in record {
              return;
            }
            if newer {
              dbCalls := dbCalls + [UpdateAd(record)];
            } else {
              oldAdsCount := oldAdsCount + 1;
              if oldAdsCount > oldItemsThreshold {
                stopRequestingE := true;
              }
            }
          }
          dbCalls := dbCalls + [DeleteAdUrl(adId)];
          CommitChecker(item, ADS_TRANSACTION_SIZE);
      }
    }

    /** `GeocodingFactory.store_data`. */
    method StoreLocation(record: Record, stored: bool)
      modifies this
      ensures State() == GeoStored(old(State()), record, stored)
    {
      if "completion" in record {
        dbCalls := dbCalls + [CompleteRecord(record - {"completion"})];
      } else if !stored {
        dbCalls := dbCalls + [InsertLocation(record)];
      }
      CommitChecker(ItemDict(record), GEO_TRANSACTION_SIZE);
    }

    /** The end of `consume_data`. */
    method ConsumeEnd()
      modifies this
      ensures State() == ConsumeEnded(old(State()), gen)
    {
      if transactionItems > 0 {
        dbCalls := dbCalls + [Commit];
        if gen == Current {
          transactionItems := 0;
        }
      }
    }
  }
}
