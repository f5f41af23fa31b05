# ScrapeMeAgain, modelled in Dafny

ScrapeMeAgain is a Python framework for scraping classified ads and search results through
Tor. A *pipeline* runs workers over three queues. The URL queue holds list-page and item URLs.
The response queue holds fetched pages. The data queue holds scraped records. Whenever a
round of requests is done, the workers pause and the pipeline changes the exit IP. A
*databaser* stores item URLs and item data in SQLite. In the dockerized setup, a *URL broker*
hands every scraper container its own range of list pages. An *IP store* decides which exit IPs
may be reused.

This project models the core of that system on explicit state:

- the pipeline of `scrapemeagain/pipeline.py` as a class whose methods move URLs, responses
  and records between the queues (`pipeline.dfy`);
- the custom pipeline that changes IP only when the API reports its query limit exhausted
  (`custom_pipeline.dfy`);
- the URL broker's range generation and its cursor (`urlbrokers.dfy`);
- the three generations of the networker, each with its used-IP list and its `get_geo`
  parameters (`networker.dfy`, `legacy_networker.dfy`, `scripts_networker.dfy`), and the IP
  store's safety check (`ipstore.dfy`);
- the databaser's transaction counter, commit checks and tables (`databaser.dfy`);
- the two generations of the multiprocessing factories (`mprocess.dfy`);
- the string utilities of `alphanumericker.py` (`alphanumericker.dfy`) over the string primitives
  of `text.dfy`;
- the address cleanup and comparison of `addresser.py` (`addresser.dfy`);
- the geocoder's setters, component collection, verification and partial cache
  (`geocoder.dfy`);
- the scrapers' URL generation and page scraping (`basescraper.dfy`, `examplescraper.dfy`,
  `searchscraper.dfy`), with the HTTP status classes they share (`http.dfy`);
- an `Option`/`Result` module (`wrappers.dfy`).

The objects the source updates in place are Dafny classes. Examples are the pipeline, the URL
broker's cursor, the networkers' used-IP lists, the databaser, the factories, the address
cleanup and the geocoder. Each class exposes a `State()` snapshot. Every method ensures that
the new snapshot is a specification function of the old one, and the properties of those
functions are proved as lemmas. The loops of the source are `while` loops with invariants. Two
examples are `string_to_digit` and the dash loop of `_locality_cleanup`.

Where the source is evidently wrong (see "## Findings"), the as-written behaviour is modelled
and shown to go wrong on a concrete input. A corrected definition is proved beside it. The
classes keep the as-written behaviour of the source, except `Alphanumericker.StringToDigit`,
which follows the corrected definition.

## Model

| member | source | states |
|---|---|---|
| Http.IsRetryRange | scrapemeagain/pipeline.py:125-135 | a failed response is fetched again exactly for the statuses 408 to 599; the failures 400 to 407 are not retried |
| Http.MapFetch | scrapemeagain/pipeline.py:146 | `pool.map(get, urls)` yields one response per URL, the `i`-th being the fetch of the `i`-th URL |
| Http.RetryPartition | scrapemeagain/pipeline.py:125-135 | `_classify_response` splits responses in two: the retried URLs and the forwarded responses together number the responses, a response is forwarded exactly when it is not retryable, and every retryable response's URL is queued again |
| BaseScraper.ListUrlsCountProperties | scrapemeagain/scrapers/basescraper.py:69-71 | `list_urls_count` is the size of the range whichever way round it is given, and 0 for the exhausted `(0, 0)` |
| BaseScraper.TilingCounts | scrapemeagain/scrapers/basescraper.py:69-71 | the counts of scrapers whose ranges tile `[0, count)` add up to `count` |
| ExampleScraper.ListUrlsShape | examples/examplescraper/scraper.py:44-46 | `generate_list_urls` yields `start - end` URLs when `start > end` and none otherwise; the `k`-th is for page `start - k` |
| ExampleScraper.FormatListUrlProperties | examples/examplescraper/scraper.py:37-42 | every list URL contains the list template, so the pipeline treats its response as a list page; distinct page numbers give distinct URLs |
| ExampleScraper.DefaultListUrls | examples/examplescraper/scraper.py:21-24 | the default range `(10, 0)` gives the ten pages 10 down to 1 |
| ExampleScraper.ListUrlsConcat | examples/examplescraper/scraper.py:44-46 | two adjacent ranges generate, one after the other, exactly the URLs of their union |
| ExampleScraper.TilingGeneratesAllPages | examples/examplescraper/scraper.py:74-80 | scrapers whose broker ranges tile `[0, count)` generate pages `count` down to 1 between them, each once and in order |
| ExampleScraper.GetItemUrls | examples/examplescraper/scraper.py:48-57 | one `{"url": href}` record per `h3` link, in page order |
| ExampleScraper.ItemPropertiesShape | examples/examplescraper/scraper.py:59-71 | the properties always hold the response URL, hold `h1` exactly when the page has a header (the first one), and nothing else |
| ExampleScraper.DockerizedExampleScraper.constructor | examples/examplescraper/scraper.py:74-80 | no range is cached and the controller has not been asked |
| ExampleScraper.DockerizedExampleScraper.ListUrlsRange | examples/examplescraper/scraper.py:75-80 | the controller is asked on the first access only; every later access returns the cached range and changes nothing |
| SearchExampleScraper.RangeShape | scrapemeagain/scrapers/examplescraper/scraper.py:21 | `range(i, hi, step)` has `n` elements, `i + k * step`, where `n` is the least count reaching `hi` |
| SearchExampleScraper.ListUrlsShape | scrapemeagain/scrapers/examplescraper/scraper.py:17-25 | eleven list URLs, for the result offsets 0, 10, ..., 100 |
| SearchExampleScraper.BeforeAmpersand | scrapemeagain/scrapers/examplescraper/scraper.py:34 | `split('&')[0]` is a prefix of the link without `'&'`, and is followed by `'&'` when it is shorter than the link |
| SearchExampleScraper.ItemUrls | scrapemeagain/scrapers/examplescraper/scraper.py:27-43 | one record per selected heading, also for headings whose link is not a direct one |
| SearchExampleScraper.GetItemUrls | scrapemeagain/scrapers/examplescraper/scraper.py:27-43 | the loop builds exactly the records of `ItemUrls`, in heading order |
| SearchExampleScraper.ItemUrlsShape | scrapemeagain/scrapers/examplescraper/scraper.py:31-41 | entry `k` has a URL exactly when the link before its first `'&'` starts with `/url?q=`; then it is that link without the marker (when the marker does not recur) |
| SearchExampleScraper.ItemPropertiesShape | scrapemeagain/scrapers/examplescraper/scraper.py:45-59 | the properties hold the response URL, `h1` exactly when the page has a header, and nothing else |
| Pipeline.ClassifyResponseRouting | scrapemeagain/pipeline.py:125-135 | a response goes back as its URL to `url_queue` exactly when it is a retry, and otherwise to `response_queue`; nothing else changes |
| Pipeline.GeneratorNextPacing | scrapemeagain/pipeline.py:101-123 | each resumption of the URL generator moves URLs to `url_queue` in order and loses none: `workers_count` of them while that many remain, otherwise the rest, and then `producing_urls_in_progress` is cleared |
| Pipeline.StartRoundShape | scrapemeagain/pipeline.py:159-167 | a round starts with an empty bucket, `urls_bucket_empty` raised and `workers_count` slots to fill |
| Pipeline.TakeUrlShape | scrapemeagain/pipeline.py:167-178 | one `url_queue.get()` keeps the bucket free of sentinels, within `workers_count` URLs and in step with `urls_bucket_empty` |
| Pipeline.FillShape | scrapemeagain/pipeline.py:167-178 | the round's loop keeps the bucket well-formed, only appends the queue's own URLs in order, ends the round or waits on an empty queue, and stops the producer only after reading `EXIT` |
| Pipeline.ClassifyAllFrame | scrapemeagain/pipeline.py:143-146 | classifying the pool's responses touches only the URL and response queues |
| Pipeline.ClassifyAllQueues | scrapemeagain/pipeline.py:143-146 | classifying a round's responses appends exactly the URLs of the retryable ones (`not ok` and status at least 408) to the URL queue and exactly the others to the response queue, each in the order the pool yields them; the data queue does not change |
| Pipeline.HtmlFetchedQueues | scrapemeagain/pipeline.py:137-151 | `_actually_get_html` dispatches the bucket once and leaves `requesting_in_progress` clear; every URL whose response the thread pool yielded before `get` raised (every URL when nothing raised) ends in exactly one queue, retryable ones back on the URL queue and the rest on the response queue, in URL order; a raise at the first URL changes no queue |
| Pipeline.FinishRoundDispatch | scrapemeagain/pipeline.py:180-184 | a non-empty bucket is dispatched exactly once and an empty one never; the IP changes exactly when the round did not read `EXIT`; `requesting_in_progress` ends cleared |
| Pipeline.ThreeUrlsThenExit | scrapemeagain/pipeline.py:159-184 | three URLs then `EXIT` with a bucket of three: four `get` calls, one dispatch of the three URLs, one IP change, the loop ends, and only the retried URLs (of those the pool yielded before `get` raised, if it did) stay on `url_queue` |
| Pipeline.ThreeUrlsFirstRound | scrapemeagain/pipeline.py:159-184 | the first of those rounds: three `get` calls fill the bucket, it is dispatched once, the IP changes, and `EXIT` stays on `url_queue` ahead of the retried URLs |
| Pipeline.CollectStepRouting | scrapemeagain/pipeline.py:186-229 | a response is a list page exactly when its URL contains the list template; only truthy data reaches `data_queue`, one unit per response; `scraping_in_progress` ends cleared; `EXIT` stops the collector |
| Pipeline.StoreCallsCount | scrapemeagain/pipeline.py:231-254 | one data unit costs one `delete_url` when it is an item record with a URL, one `insert` when the record has more than one key, and never a commit |
| Pipeline.StoreDrainAccounting | scrapemeagain/pipeline.py:256-283 | storing a queue without `EXIT` counts every unit processed once, deletes each item URL once, inserts each record with more than one key once, keeps the earlier calls and never commits |
| Pipeline.PollDecision | scrapemeagain/pipeline.py:320-339 | a poll stops the watchdog exactly when the queues are empty, the workers idle and the bucket empty, and then puts one `EXIT` on each queue; when only the bucket holds URLs it puts a single `DUMP_URLS_BUCKET`; otherwise it changes nothing |
| Pipeline.ExitStopsEveryWorker | scrapemeagain/pipeline.py:287-296 | after `exit_workers`, the producer ends without a dispatch or IP change, the collector stops, and the storer commits once and stops |
| Pipeline.DumpFlushesBucket | scrapemeagain/pipeline.py:332-339 | `DUMP_URLS_BUCKET` ends a round holding a partial bucket; the bucket is dispatched as it is and the IP changes |
| Pipeline.EarlyPollEndsRun | scrapemeagain/pipeline.py:320-330 | a poll before `producing_urls_in_progress` is raised exits the workers, and the producer's first round reads `EXIT` before any URL is requested |
| Pipeline.Pipeline.constructor | scrapemeagain/pipeline.py:47-61 | empty queues, cleared events, `urls_bucket_empty` at 1, no URL processed |
| Pipeline.Pipeline.StartGetHtml | scrapemeagain/pipeline.py:153-157 | `producing_urls_in_progress` is raised and the loop runs |
| Pipeline.Pipeline.NextUrls | scrapemeagain/pipeline.py:101-110 | the generator's loop moves exactly the URLs `GeneratorNext` says, pausing after `workers_count` |
| Pipeline.Pipeline.StartRound | scrapemeagain/pipeline.py:159-167 | the head of a round, as `RoundStarted` |
| Pipeline.Pipeline.TakeNextUrl | scrapemeagain/pipeline.py:168-178 | one `get` with its `EXIT`, `DUMP_URLS_BUCKET` and URL branches, as `TakeUrl` |
| Pipeline.Pipeline.FillBucket | scrapemeagain/pipeline.py:167-178 | the round's `for` loop, as `Fill` |
| Pipeline.Pipeline.ClassifyResponse | scrapemeagain/pipeline.py:125-135 | `_classify_response`, as `Classified` |
| Pipeline.Pipeline.ActuallyGetHtml | scrapemeagain/pipeline.py:137-151 | the loop classifies each response as the thread pool yields it, in URL order, and stops where `get` raises, as `HtmlFetched`, with `requesting_in_progress` set meanwhile and cleared after |
| Pipeline.Pipeline.ChangeIp | scrapemeagain/pipeline.py:89-99 | exactly one IP change and nothing else |
| Pipeline.Pipeline.FinishRound | scrapemeagain/pipeline.py:180-184 | the tail of a round, as `RoundFinished` |
| Pipeline.Pipeline.CollectNext | scrapemeagain/pipeline.py:221-229 | one pass of `collect_data`, as `CollectStep` |
| Pipeline.Pipeline.StoreNext | scrapemeagain/pipeline.py:273-285 | one pass of `store_data`, as `StoreStep`: commit at `EXIT`, otherwise store and count the unit |
| Pipeline.Pipeline.ExitWorkers | scrapemeagain/pipeline.py:287-296 | one `EXIT` on each queue |
| Pipeline.Pipeline.SwitchPowerPoll | scrapemeagain/pipeline.py:320-339 | one poll of `switch_power`, as `Poll` |
| CustomPipeline.ScrapeApiData | examples/examplescraper2/custom_pipeline.py:59-77 | no data exactly when the JSON has no `target_data`; otherwise `target_data` with `"url"` set to the request URL and every other key kept |
| CustomPipeline.ChangeIpOnlyWhenFlagged | examples/examplescraper2/custom_pipeline.py:18-35 | the IP changes exactly when `change_ip_now` was set; the flag is clear afterwards and the queues are untouched |
| CustomPipeline.ApiClassifyRouting | examples/examplescraper2/custom_pipeline.py:37-57 | an exhausted query limit sets `change_ip_now` and re-queues only the URL; any other status forwards the URL and JSON and leaves the flag alone |
| CustomPipeline.ApiClassifyAllFlag | examples/examplescraper2/custom_pipeline.py:37-57 | after a round `change_ip_now` is set exactly when it was before or some response reported the limit exhausted |
| CustomPipeline.ExhaustedRoundRotatesOnce | examples/examplescraper2/custom_pipeline.py:18-57 | a round with an exhausted limit ends with exactly one IP change however many responses reported it; a round without one changes nothing |
| CustomPipeline.ItemPropertiesCallsShape | examples/examplescraper2/custom_pipeline.py:79-93 | `None` stores nothing; scraped data always deletes its URL once, and is inserted exactly when it holds more than the URL |
| CustomPipeline.ExhaustApiLimitPipeline.constructor | examples/examplescraper2/custom_pipeline.py:8-16 | the event starts clear and the batch size is 5 |
| CustomPipeline.ExhaustApiLimitPipeline.ChangeIp | examples/examplescraper2/custom_pipeline.py:18-35 | `change_ip`, as `IpChangeDecided` |
| CustomPipeline.ExhaustApiLimitPipeline.ClassifyResponse | examples/examplescraper2/custom_pipeline.py:37-57 | `_classify_response`, as `ApiClassified` |
| CustomPipeline.ExhaustApiLimitPipeline.StoreItemProperties | examples/examplescraper2/custom_pipeline.py:79-93 | nothing for `None`, the base pipeline's calls otherwise |
| Databaser.CommitOutcome | scrapemeagain/databaser.py:64-75 | a successful commit makes the session durable and zeroes the counter; a failed one rolls the session back to the committed tables and keeps the counter; the dockerized databaser also commits remotely, once per call (lines 248-250) |
| Databaser.ManageTransactionBound | scrapemeagain/databaser.py:77-83 | for every counter value, counting one item commits exactly when the new count passes `transaction_items_max`; without a commit only the counter moves; a successful commit makes the session durable and zeroes the counter; a failed one rolls the session back to the committed tables and keeps the counter past the maximum |
| Databaser.InsertMultipleData | scrapemeagain/databaser.py:100-117 | in a run where every commit succeeds, inserting item data appends the items in order, keeps the counter within the maximum, commits nothing while the counter stays within it, and never leaves more rows uncommitted than the counter says |
| Databaser.InsertUrlKeepsIdsIncreasing | scrapemeagain/databaser.py:85-98 | an inserted item URL gets the next id at the end of the table, with its `url` or NULL, so ids keep increasing |
| Databaser.WithoutUrlMembers | scrapemeagain/databaser.py:126-128 | the delete keeps exactly the rows of other URLs |
| Databaser.WithoutUrlCounts | scrapemeagain/databaser.py:126-128 | the delete leaves no row of the deleted URL and the count of every other URL unchanged |
| Databaser.WithoutUrlIncreasing | scrapemeagain/databaser.py:126-128 | deleting rows keeps the ids increasing |
| Databaser.DeleteUrlEffect | scrapemeagain/databaser.py:119-130 | `delete_url` removes every row of that URL and nothing else, counts one item and never commits, so the counter can pass the maximum |
| Databaser.DropNewestCount | scrapemeagain/databaser.py:136-151 | the statement removes, for each URL with more than one row, the rows carrying that URL's largest id |
| Databaser.KeepOldestCount | scrapemeagain/databaser.py:136-151 | the intended removal keeps, for each URL, the rows carrying its smallest id |
| Databaser.CountIdUrlAtMostOne | scrapemeagain/databaser.py:136-151 | with unique ids at most one row has a given id |
| Databaser.ExtremeIdsAttained | scrapemeagain/databaser.py:139-144 | `MAX(id)` and `MIN(id)` of a URL that has rows belong to rows of that URL |
| Databaser.RemoveDuplicateItemUrlsCount | scrapemeagain/databaser.py:132-151 | as written, one call deletes exactly one row of every URL that has more than one row, and none of the others |
| Databaser.RemoveDuplicateItemUrlsLeavesDuplicates | scrapemeagain/databaser.py:132-151 | a URL stored three times is still stored twice after the removal |
| Databaser.RemoveAllDuplicateItemUrlsCount | scrapemeagain/databaser.py:132-151 | the corrected removal leaves exactly one row of every stored URL |
| Databaser.DropNewestSubsequence | scrapemeagain/databaser.py:132-151 | the removal keeps exactly the rows that are not the newest copy of a duplicated URL, with ids still increasing |
| Databaser.GetItemUrlsOrder | scrapemeagain/databaser.py:153-163 | `get_item_urls` first removes duplicates as `AfterRemoveDuplicates` does, then returns the URL of every session row that is not the newest copy of a URL duplicated in the committed table, newest row first |
| Databaser.RemoveDuplicatesDurable | scrapemeagain/databaser.py:132-151 | the removal runs on the engine, which commits it at once: the committed table becomes `DuplicatesRemoved` of itself, so a later rollback does not bring the rows back; the session keeps its other rows, ids stay increasing, and the counter and item data do not change |
| Databaser.BaseDatabaser.constructor | scrapemeagain/databaser.py:18-37 | empty tables and a zero counter |
| Databaser.BaseDatabaser.Commit | scrapemeagain/databaser.py:64-75 | `commit` (with the dockerized override at lines 248-250), as `AfterCommit` |
| Databaser.BaseDatabaser.ManageTransaction | scrapemeagain/databaser.py:77-83 | `manage_transaction`, as `AfterManageTransaction` |
| Databaser.BaseDatabaser.Insert | scrapemeagain/databaser.py:100-105 | `insert` (with the dockerized override at lines 236-246), as `AfterInsert`; ids keep increasing |
| Databaser.BaseDatabaser.InsertMultiple | scrapemeagain/databaser.py:107-117 | `insert` for each item in order |
| Databaser.BaseDatabaser.DeleteUrl | scrapemeagain/databaser.py:119-130 | `delete_url`, as `AfterDeleteUrl` |
| Databaser.BaseDatabaser.RemoveDuplicateItemUrls | scrapemeagain/databaser.py:132-151 | the engine's delete drops the newest copy of each duplicated URL from the committed table and the session stops seeing those rows, as `AfterRemoveDuplicates`; nothing else changes |
| Databaser.BaseDatabaser.GetItemUrls | scrapemeagain/databaser.py:153-163 | `get_item_urls`, as `AfterGetItemUrls` |
| UrlBrokers.GenerateUrlsRangeCovers | scrapemeagain/dockerized/apps/urlbroker/urlbrokers.py:12-28 | the ranges `generate_urls_range` yields are contiguous, non-empty, start at the page count, end at 0, and hold every page of `[0, count)` exactly once; `descending` only swaps each pair |
| UrlBrokers.GenerateUrlsRangeFails | scrapemeagain/dockerized/apps/urlbroker/urlbrokers.py:13-16 | the generator raises `ZeroDivisionError` exactly when there are no scrapers, and a zero-step `ValueError` exactly when there are fewer pages than scrapers |
| UrlBrokers.GenerateUrlsRangeCount | scrapemeagain/dockerized/apps/urlbroker/urlbrokers.py:12-28 | the generator yields `n + (count % n) // (count // n)` ranges, exactly `SCRAPERS_COUNT` of them iff `count % n < count // n` |
| UrlBrokers.GenerateUrlsRangeEvenSplit | scrapemeagain/dockerized/apps/urlbroker/urlbrokers.py:12-28 | when the page count is a multiple of the scraper count, every scraper gets one range of `step` pages, the last reaching 0 |
| UrlBrokers.AsWrittenLeavesLowPages | scrapemeagain/dockerized/apps/urlbroker/urlbrokers.py:14-20 | when `count % n >= count // n` there are more ranges than scrapers and the first `n` ranges all stay above page `count % n` |
| UrlBrokers.AsWrittenLeavesLowPagesExample | scrapemeagain/dockerized/apps/urlbroker/urlbrokers.py:14-20 | 29 pages for 10 scrapers give 14 ranges, and the first ten all end at 9 or above, leaving the nine lowest pages out |
| UrlBrokers.CorrectedCoversAll | scrapemeagain/dockerized/apps/urlbroker/urlbrokers.py:12-28 | the corrected split gives exactly one range per scraper, and together the ranges hold every page exactly once |
| UrlBrokers.CorrectedAgrees | scrapemeagain/dockerized/apps/urlbroker/urlbrokers.py:12-28 | wherever the generator already yields one range per scraper, the corrected split yields the same ranges |
| UrlBrokers.CursorHandsOutInOrder | scrapemeagain/dockerized/apps/urlbroker/urlbrokers.py:30-37 | successive `get_urls_range` calls hand out the generated ranges in order and `(0, 0)` once they run out; a failing generator raises on the first call only |
| UrlBrokers.UrlsRangeManager.constructor | scrapemeagain/dockerized/apps/urlbroker/urlbrokers.py:5-7 | no generator yet; `ListUrlsBroker` (lines 40-47) fixes the count to the scraper's list count |
| UrlBrokers.UrlsRangeManager.GetUrlsRange | scrapemeagain/dockerized/apps/urlbroker/urlbrokers.py:30-37 | one call, as `CursorNext`: creates the generator on first use, then yields its next range or `(0, 0)` |
| Alphanumericker.StripSpaceRemovesOnlySpaces | scrapemeagain/util/alphanumericker.py:38-47 | `strip_space` leaves no space, keeps every other character as often as before, and leaves space-free strings alone |
| Alphanumericker.HandleDotsCases | scrapemeagain/util/alphanumericker.py:120-135 | `handle_dots` leaves dot-free strings alone, drops a trailing dot, and otherwise puts a space after every dot, adding nothing but spaces |
| Alphanumericker.DotsFollowedBySpace | scrapemeagain/util/alphanumericker.py:133 | after `replace('.', '. ')` every dot is followed by a space |
| Alphanumericker.HandleDashesShape | scrapemeagain/util/alphanumericker.py:138-150 | `handle_dashes` leaves dash-free strings alone and otherwise surrounds every dash with spaces, adding two characters per dash |
| Alphanumericker.DashesSurrounded | scrapemeagain/util/alphanumericker.py:148 | after `replace('-', ' - ')` every dash has a space on both sides |
| Alphanumericker.KeepAsciiShape | scrapemeagain/util/alphanumericker.py:86-101 | dropping every non-ASCII character yields ASCII only and leaves ASCII strings alone |
| Alphanumericker.KeepAsciiIsAsciiStep | scrapemeagain/util/alphanumericker.py:86-101 | dropping non-ASCII characters has both properties the model relies on from the NFKD-and-ignore step of `string_to_ascii`, so that assumption can be met |
| Alphanumericker.ComparableShape | scrapemeagain/util/alphanumericker.py:104-117 | a comparable string is ASCII, without spaces and without capitals |
| Alphanumericker.ComparableOfComparable | scrapemeagain/util/alphanumericker.py:104-117 | a string already in comparable form is its own comparable form |
| Alphanumericker.ComparableStringIdempotent | scrapemeagain/util/alphanumericker.py:104-117 | `comparable_string` maps None, and only None, to None, and applying it twice is applying it once |
| Alphanumericker.ScanEnd | scrapemeagain/util/alphanumericker.py:66-78 | the scan stops at the first character that is neither a digit nor a comma and is not followed by a digit, and nowhere before it |
| Alphanumericker.TranslateKeepsDigits | scrapemeagain/util/alphanumericker.py:67-72 | the collected items hold the scanned digits in their order |
| Alphanumericker.TranslateCommas | scrapemeagain/util/alphanumericker.py:71-72 | each comma becomes exactly one dot, and no other dot is collected |
| Alphanumericker.StringToDigit | scrapemeagain/util/alphanumericker.py:50-83 | the loop of `string_to_digit(s, int)` computes `StringToDigitSpec`: no number when neither of the first two characters is a digit, else the collected items read as an integer, truncated at the dot |
| Alphanumericker.StringToDigitAgrees | scrapemeagain/util/alphanumericker.py:50-83 | wherever the code as written does not raise `IndexError`, it agrees with the corrected scan |
| Alphanumericker.StringToDigitTrailingDash | scrapemeagain/util/alphanumericker.py:74-78 | `"250,-"` raises `IndexError` as written, and reads 250 with the corrected end-of-string test |
| Alphanumericker.StringToDigitOfDigits | scrapemeagain/util/alphanumericker.py:50-83 | a string of at least two digits reads as its decimal value, as written and corrected |
| Alphanumericker.StringToDigitNoLeadingDigit | scrapemeagain/util/alphanumericker.py:62-64 | when neither of the first two characters left after removing spaces is a digit, the result is None |
| Alphanumericker.IterableToStringShape | scrapemeagain/util/alphanumericker.py:166-185 | `iterable_to_string` joins the items with `", "`, quoting adds two characters per item, and the result splits back into its first item and the rest |
| Text.ReplaceCharRemovesAll | scrapemeagain/util/alphanumericker.py:47 | `replace` of one character leaves none of it unless the replacement brings it back |
| Text.ReplaceCharKeepsOthers | scrapemeagain/util/alphanumericker.py:47 | `replace` of one character keeps every other character of the input as often as before |
| Text.ReplaceCharLength | scrapemeagain/util/alphanumericker.py:133 | each replaced character grows the string by the replacement's length minus one |
| Text.WordsAreWords | scrapemeagain/util/addresser.py:228 | every piece `split()` returns is a non-empty run without whitespace |
| Text.WordsEmptyIffBlank | scrapemeagain/util/addresser.py:228 | `split()` returns nothing exactly for a blank string |
| Text.WordsOfJoin | scrapemeagain/util/addresser.py:228 | `split()` undoes `' '.join` of words |
| Text.CollapseShape | scrapemeagain/util/addresser.py:228 | `' '.join(s.split())` leaves only single inner spaces, and is empty exactly for a blank string |
| Text.CollapseIdempotent | scrapemeagain/util/addresser.py:228 | collapsing whitespace twice is collapsing it once |
| Text.StripShape | scrapemeagain/util/addresser.py:229 | `strip()` returns the slice between the blank margins, trimmed |
| Text.StripTrimmed | scrapemeagain/util/addresser.py:229 | `strip()` leaves a trimmed string alone |
| Text.TitleShape | scrapemeagain/util/addresser.py:229 | `title()` changes only the case of letters, keeps collapsed and trimmed strings so, and is idempotent |
| Text.ParseNatToString | scrapemeagain/util/alphanumericker.py:81-83 | `int(str(n)) == n`, and `str(n)` is a non-empty digit string |
| Text.IntToStringInjective | examples/examplescraper/scraper.py:37-42 | the page numbers formatted into list URLs print differently when they differ, so distinct pages get distinct URLs |
| IpStore.IpIsSafe | scrapemeagain/dockerized/apps/ipstore/server.py:15-21 | `/ip-is-safe/<ip>/` answers as the store's used-IP rule decides, and records a safe address in the store; that rule stands in for `TorIpChanger._ip_is_safe`, whose library is not part of this model |
| IpStore.IpIsSafeAnswer | scrapemeagain/dockerized/apps/ipstore/server.py:15-21 | the answer is safe exactly for an address not in the store; a safe address is remembered, an unsafe one changes nothing |
| Alphanumericker.StringToDigitSpec | scrapemeagain/util/alphanumericker.py:50-83 | the corrected `string_to_digit(s, int)` never raises `IndexError`: the end of the string counts as "not a digit" |
| Text.LowerString | scrapemeagain/util/alphanumericker.py:115 | `lower()` maps each byte on its own and leaves no ASCII capital |
| Text.ReplaceCharIdentity | scrapemeagain/util/alphanumericker.py:129-133 | `replace` of a character the string does not hold returns the string unchanged |
| Networker.AdmitDecision | scrapemeagain/util/networker.py:190-226 | `ip_is_usable` accepts an address exactly when it parses as an IP address, is not `REAL_IP` and is not in the used list; a rejection leaves the list alone |
| Networker.AdmitRecords | scrapemeagain/util/networker.py:217-222 | an accepted address is appended at the end; only the oldest entry is dropped, and only in bounded mode when the append reaches `USED_IPS_BUFFER_SIZE` |
| Networker.AdmitBounded | scrapemeagain/util/networker.py:220-222 | in bounded mode a list shorter than the buffer size stays shorter |
| Networker.AdmitKeepsListClean | scrapemeagain/util/networker.py:209-222 | the used list never holds an address twice and never picks up the real IP |
| Networker.IpIsUsable | scrapemeagain/util/networker.py:190-226 | `ip_is_usable`, as `Admit`, updating the shared list in place |
| Networker.RealIpAsWrittenAccepted | scrapemeagain/util/networker.py:33 | as written, `REAL_IP` keeps the echo service's trailing newline while `get_current_ip` strips it (line 177), so the real IP passes the `current_ip == REAL_IP` test (line 210) and is accepted when unused |
| Networker.RealIpRejected | scrapemeagain/util/networker.py:168-179 | with `REAL_IP` read the way `get_current_ip` reads addresses, the real IP is always rejected and the list is left alone |
| Networker.EnsureNewIp | scrapemeagain/util/networker.py:229-247 | the loop of `ensure_new_ip` over a run of echo-service reports, as `EnsureNewIpSpec`: rotate after each failure or rejection, stop at the first usable address |
| Networker.EnsureNewIpRecords | scrapemeagain/util/networker.py:229-247 | for every buffer size, `ensure_new_ip` succeeds exactly when some report is usable at its turn; it then stops at the first such report, has rotated once per earlier report and recorded that address, which stays in the list unless a bounded buffer of one evicts it at once; otherwise the list is unchanged |
| Networker.GetFailureIsRetried | scrapemeagain/util/networker.py:87-102 | a failed request becomes a fake response for the stripped URL with a status the pipeline re-queues, 408 exactly for a timeout |
| Networker.EncodeParamShape | scrapemeagain/util/networker.py:141-146 | encoded geocoding parameters are ASCII; an ASCII parameter is sent with every space turned into `+`, nothing else changed, and so no space left |
| Networker.EncodeParamKeepAsciiNoSpace | scrapemeagain/util/networker.py:141-146 | when the ASCII step drops non-ASCII characters, no encoded parameter holds a space |
| Networker.GetGeoParamsShape | scrapemeagain/util/networker.py:115-149 | `get_geo` sends the city alone without a locality, the locality alone when it already names the city in comparable form, `city,locality` otherwise, and `components` exactly for a missing locality with a known district; both parameters are sent as ASCII |
| LegacyNetworker.IpIsUsable | scrape_me_again/util/networker.py:152-183 | this generation's `ip_is_usable`: no address check, the real IP and used IPs refused, eviction when the append reaches 10 entries |
| LegacyNetworker.IpIsUsableBounded | scrape_me_again/util/networker.py:164-179 | in bounded mode a list of fewer than ten stays under ten, and an address is accepted exactly when it is neither the real IP nor used |
| LegacyNetworker.GetOutcomes | scrape_me_again/util/networker.py:30-74 | a timeout becomes a fake 408 and a connection error a fake 409 for the stripped URL, both re-queued; any other exception escapes |
| ScriptsNetworker.AdmitScriptsAgrees | scripts/util/networker.py:140-165 | the branches of this generation's `ip_is_usable` are the common rule with no address check, no real IP and eviction when the append reaches eleven entries |
| ScriptsNetworker.AdmitScriptsShape | scripts/util/networker.py:140-165 | any unused address is accepted and appended last, a used one changes nothing, and in bounded mode a list of at most ten stays at most ten |
| ScriptsNetworker.IpIsUsable | scripts/util/networker.py:140-165 | this generation's `ip_is_usable`, as `AdmitScripts`, updating the shared list in place |
| ScriptsNetworker.GetOutcomes | scripts/util/networker.py:27-61 | only a timeout becomes a fake 408 response for the stripped URL; a connection error and every other exception escape |
| MProcess.CreateDatabaserDispatch | scrapemeagain/mprocess.py:107-132 | `create_databaser` falls back to the factory's own type, raises `ValueError` exactly when no type is in force or it is neither `'ads'` nor `'geo'`, and otherwise makes the matching databaser; the older generation is the same (scripts/mprocess.py lines 100-116) |
| MProcess.CreateDatabaserNamesWrongType | scrapemeagain/mprocess.py:128-130 | as written, an explicit unknown type on an ads factory is reported as the unsupported type `"ads"`; the corrected message names `"xyz"` |
| MProcess.CommitCheckerEffect | scrapemeagain/mprocess.py:134-157 | `commit_checker` adds a list's length or 1 for a dict; at `transaction_size` or more it commits exactly once and resets the counter, otherwise it only counts; nothing else changes |
| MProcess.CommitAllAccounting | scrapemeagain/mprocess.py:134-157 | items checked one after another keep the counter below a positive size, add only commits, and commit nothing exactly when their total weight keeps the counter below the size |
| MProcess.Batch | scrapemeagain/mprocess.py:185-191 | a round takes up to `processes` targets from the front of `target_q`, fewer only when the queue runs empty |
| MProcess.ProduceRoundShape | scrapemeagain/mprocess.py:185-207 | a round with no targets changes nothing; otherwise it takes the first targets, manages the IP once, and queues one response per target in order unless the pool raised |
| MProcess.ManageIpRotation | scrapemeagain/mprocess.py:314-327 | the ads factory changes the IP before every batch (clearing `change_ip_e` in the current generation, scripts/mprocess.py lines 287-289 in the older); the geocoding factory (lines 531-536) changes it exactly when `change_ip_e` is set and clears it |
| MProcess.AdsCollectedQueues | scrapemeagain/mprocess.py:329-349 | `collect_data` appends, in response order, the URLs of failed responses with status 408 or more to `target_q` and the scraped data of the others to `data_q`; the older generation is the same (scripts/mprocess.py lines 291-311) |
| MProcess.AdsCollectedFrame | scrapemeagain/mprocess.py:329-349 | `collect_data` touches nothing but `target_q` and `data_q` |
| MProcess.AdCollectedRouting | scrapemeagain/mprocess.py:332-349 | one response is re-queued exactly when it failed with status 408 or more; otherwise its scraped data goes to `data_q`, and nothing does when scraping raised |
| MProcess.AdsStoreDecision | scrapemeagain/mprocess.py:380-411 | an ad with only its id is deleted if stored; an unseen ad is inserted, with its cached location in the current generation; a stored ad is updated when newer and counts as old otherwise, stopping the requests past the threshold; then its URL row is deleted and the counter checked against 2000 (scripts/mprocess.py lines 321-349) |
| MProcess.AdsStoreUrls | scrapemeagain/mprocess.py:374-378 | a list of ad URLs is inserted in one call and weighs its length against 10000, or 5000 in the older generation (scripts/mprocess.py lines 316-319) |
| MProcess.AdsStoreKeyError | scrapemeagain/mprocess.py:383-398 | a dict without `'ad_id'`, or a stored ad without `'last_update'`, raises before any databaser call, so nothing changes |
| MProcess.GeoStoreDecision | scrapemeagain/mprocess.py:584-593 | a completion record loses its `'completion'` key and completes the stored record; any other location is inserted unless stored; the counter is checked against 100 (scripts/mprocess.py lines 519-528) |
| MProcess.ConsumeEndCommit | scrapemeagain/mprocess.py:275-277 | `consume_data` commits at the end exactly when items are pending; the current generation then resets the counter, the older one (scripts/mprocess.py lines 249-250) does not |
| MProcess.ProducerConsumer.constructor | scrapemeagain/mprocess.py:307-312 | empty queues, clear events, zero counters, no databaser calls |
| MProcess.ProducerConsumer.CommitChecker | scrapemeagain/mprocess.py:134-157 | `commit_checker`, as `CommitChecked` |
| MProcess.ProducerConsumer.EmptyQueues | scrapemeagain/mprocess.py:159-168 | `empty_queues` drains every queue and reports how many items each held |
| MProcess.ProducerConsumer.ManageIp | scrapemeagain/mprocess.py:314-327 | `manage_ip` of the factory, as `IpManaged` (geocoding factory at lines 531-536) |
| MProcess.ProducerConsumer.TakeBatch | scrapemeagain/mprocess.py:185-191 | the batching loop takes exactly `Batch(target_q, processes)` from the front of `target_q` |
| MProcess.ProducerConsumer.ProduceDataRound | scrapemeagain/mprocess.py:184-207 | one pass of the `produce_data` loop, as `ProduceRound` |
| MProcess.ProducerConsumer.CollectAds | scrapemeagain/mprocess.py:329-349 | `AdsFactory.collect_data` for one item of `responses_q`, as `AdsCollected` |
| MProcess.ProducerConsumer.StoreAd | scrapemeagain/mprocess.py:372-411 | `AdsFactory.store_data`, as `AdsStored` |
| MProcess.ProducerConsumer.StoreLocation | scrapemeagain/mprocess.py:584-593 | `GeocodingFactory.store_data`, as `GeoStored` |
| MProcess.ProducerConsumer.ConsumeEnd | scrapemeagain/mprocess.py:275-277 | the end of `consume_data`, as `ConsumeEnded` |
| Geocoder.ResultOfStatus | scripts/geocoder.py:437-460 | the `geocoding_result` setter keeps the answer exactly for status `"OK"`, gives 0 exactly for `"ZERO_RESULTS"`, and None, which asks for geocoding again, for every other status |
| Geocoder.RequestedItems | scripts/geocoder.py:466-480 | the `address_components` setter maps positions 0, 1 and 2 to `district`, `city` and `locality` in that order, and raises `IndexError` exactly for a tuple shorter than three, with the dict filled up to the missing position |
| Geocoder.RequestedComparable | scripts/geocoder.py:466-480 | the requested address dict compares like the tuple it came from |
| Geocoder.CoordinatesOf | scripts/geocoder.py:486-497 | the `address_coordinates` setter takes latitude and longitude from positions 0 and 1, and raises `IndexError` exactly for a shorter tuple |
| Geocoder.ComponentKindOrder | scripts/geocoder.py:178-221 | a component's use is decided by the first of its types in the order postal code, country, the two administrative levels, locality, route/sublocality/neighbourhood, establishment, premise, street number |
| Geocoder.CollectFromKeeps | scripts/geocoder.py:178-221 | components of other kinds never change a key of the location data, and the coordinates are never changed |
| Geocoder.FirstComponentWins | scripts/geocoder.py:178-221 | since the loop runs over the components in reverse, the first component of a kind decides that kind's key |
| Geocoder.LocalityShortOrigin | scripts/geocoder.py:197-204 | `locality_short` is recorded only from a route/sublocality/neighbourhood component whose short name differs from its long name |
| Geocoder.CollectedNumbers | scripts/geocoder.py:209-221 | one component adds its long name to the address-number parts exactly when it is a street number, or a premise whose name occurs in the requested locality |
| Geocoder.NumberParts | scripts/geocoder.py:178-221 | every address-number part comes from a street number, or from a premise whose name occurs in the requested locality; with no requested locality no premise is used |
| Geocoder.NumberAppliedShape | scripts/geocoder.py:223-233 | two number parts are joined by `'/'`, otherwise the first is used; the number follows the locality after a space or becomes the locality; nothing else changes |
| Geocoder.LocationDataShape | scripts/geocoder.py:165-245 | the collected data always holds the result's coordinates, and a locality equal to the city in comparable form is dropped |
| Geocoder.CityVerifiedCases | scripts/geocoder.py:256-264 | the city check fails without a geocoded city or with a requested city of None, and otherwise holds exactly when both cities have the same comparable form |
| Geocoder.Geocoder.constructor | scripts/geocoder.py:31-37 | no result, no requested address, no coordinates and an empty partial cache |
| Geocoder.Geocoder.SetGeocodingResult | scripts/geocoder.py:437-460 | the `geocoding_result` setter, as `ResultOf`; nothing else changes |
| Geocoder.Geocoder.SetAddressComponents | scripts/geocoder.py:466-480 | the `address_components` setter, as `RequestedItems`, including the partly filled dict it leaves when it raises |
| Geocoder.Geocoder.SetAddressCoordinates | scripts/geocoder.py:486-497 | the `address_coordinates` setter, as `CoordinatesOf`; a short tuple leaves the old coordinates |
| Geocoder.Geocoder.CollectLocationData | scripts/geocoder.py:165-245 | the backwards loop of `_collect_location_data` computes `LocationData` |
| Geocoder.Geocoder.ClearFromCache | scripts/geocoder.py:60-79 | `_clear_from_cache` removes one cache entry whose list holds the coordinates and sets the result's coordinates to that entry's key; with no such entry nothing changes |
| Addresser.ComparableAddressShape | scrapemeagain/util/addresser.py:250-286 | `comparable_address` raises `TypeError` exactly for an argument that is neither a dict nor a tuple, naming its type; otherwise its string has no spaces, no capitals and only ASCII |
| Addresser.ComparablePartsAppend | scrapemeagain/util/addresser.py:274-279 | the comparable address of a tuple is built part by part: the parts of `a + b` give that of `a` followed by that of `b` |
| Addresser.NoneComponentSkipped | scrapemeagain/util/addresser.py:275-277 | a None component of a tuple contributes nothing, wherever it stands |
| Addresser.NonStringValueSkipped | scrapemeagain/util/addresser.py:262-264 | a dict value that is not a string contributes nothing, wherever it stands |
| Addresser.DictAgreesWithTuple | scrapemeagain/util/addresser.py:261-279 | a dict and a tuple with the same strings in the same order compare equal |
| Addresser.ComparableAddressOfComparable | scrapemeagain/util/addresser.py:274-279 | components already in comparable form give the same comparable address |
| Addresser.NormalizedTextShape | scrapemeagain/util/addresser.py:222-229 | a normalised string value is empty exactly when it was blank after the dots and dashes were handled, and has no leading, trailing or repeated whitespace |
| Addresser.NormalizedAddressShape | scrapemeagain/util/addresser.py:206-247 | `normalize_address` adds no component, keeps every non-string component, keeps a string component exactly when it is not blank, and leaves every kept string non-empty, collapsed and trimmed |
| Addresser.NormalizeAddress | scrapemeagain/util/addresser.py:206-247 | the loop over the components computes `NormalizedAddress`, whatever order the keys are visited in |
| Addresser.AssertedContract | scrapemeagain/util/addresser.py:72-95 | `_asert` passes exactly when the condition holds and then changes nothing; a failure deletes exactly the listed components, sets both coordinates to the ungeocoded value when asked, and keeps every other component |
| Addresser.EnsureCityOutcome | scrapemeagain/util/addresser.py:97-109 | an address with a city passes untouched; one without passes exactly when it has a locality and a district, and its locality then becomes its city; otherwise it is marked ungeocoded |
| Addresser.ShortLocalityOutcome | scrapemeagain/util/addresser.py:139-149 | a locality of at most 3 characters that is not a number is dropped and the cleanup aborts, and so is a short number when the district equals the city or the city occurs in the locality; everything else passes untouched |
| Addresser.DashTrimmedSuffix | scrapemeagain/util/addresser.py:175-190 | the "Nitra - Badice" rule only ever keeps a suffix of the locality, and leaves a locality without a dash alone |
| Addresser.LocalityFinishedShape | scrapemeagain/util/addresser.py:192-203 | the locality that remains is stripped, titled, non-empty, and differs from the district in comparable form; no other component changes |
| Addresser.LocalityCleanedOutcome | scrapemeagain/util/addresser.py:170-203 | `_locality_cleanup` fails, dropping the locality, exactly when the locality equals the city; after a pass the locality, if any, is non-empty, stripped and not the district; only the locality changes |
| Addresser.CleanupOutcome | scrapemeagain/util/addresser.py:31-70 | `__call__` returns an address only when the normalised address has a city and a locality, and then with every other component as normalised; without a city it returns None, and without a locality and a district too it marks the address ungeocoded |
| Addresser.AddressCleanup.constructor | scrapemeagain/util/addresser.py:30 | an empty address and empty comparable city and locality |
| Addresser.AddressCleanup.Asert | scrapemeagain/util/addresser.py:72-95 | `_asert`, as `Asserted`, deleting the listed components one by one |
| Addresser.AddressCleanup.EnsureCity | scrapemeagain/util/addresser.py:97-109 | `_ensure_city`, as `EnsuredCity` |
| Addresser.AddressCleanup.ManageShortLocality | scrapemeagain/util/addresser.py:139-149 | `_manage_short_locality`, as `ShortLocalityManaged` |
| Addresser.AddressCleanup.TrimDashes | scrapemeagain/util/addresser.py:175-190 | the loop over the city's words computes `DashTrimmed` and changes only the locality |
| Addresser.AddressCleanup.LocalityCleanup | scrapemeagain/util/addresser.py:170-203 | `_locality_cleanup`, as `LocalityCleaned` |
| Addresser.AddressCleanup.FinishLocality | scrapemeagain/util/addresser.py:192-203 | the final removals of `_locality_cleanup`, as `LocalityFinished` |
| Addresser.AddressCleanup.Call | scrapemeagain/util/addresser.py:31-70 | `__call__`, as `Called` |

## Left out

- Concurrency: processes, pools, threads, blocking queues and events shared between processes are not modelled. Each worker is modelled as one step over explicit state, not as interleavings.
- Timing: sleeps, idle timers, progress percentages, `inform` and `_inform_progress` are not modelled, because they rest on the wall clock and on floats. Date and time stamps are abstract values.
- Network I/O: fetching a page is a parameter `fetch`, a function from URL to response, in the pipeline and in the factories. In the pipeline the thread pool's `map` yields responses lazily, so where `get` raises is the parameter `served`: the responses before it are classified and the rest of the round is dropped. In the factories `multiprocessing.Pool.map` returns every response or raises before any is handled, which is the flag `poolFails`. The pipeline's `get` is not part of this model. The exception kinds that the networkers' `get` catches become response statuses given as inputs. `get_current_ip`, `set_new_ip` (the Tor controller via `stem`), `get_rgeo`, the user-agent loading, and the Flask servers and `requests` clients of the dockerized apps are not modelled.
- Response.ok: requests' `ok` is modelled as "not 400 <= status < 600". This is the same as `status < 400` for every status below 600.
- IP change retries: the unbounded retry loops of `Pipeline.change_ip` and `ensure_new_ip` are one IP change in the pipeline model. `ensure_new_ip` is modelled over a finite run of observed IPs.
- The Tor IP changer library: its internals are not visible. The IP store's `ip_is_safe` is modelled, but the wrappers around the library are not.
- Database engine: SQLAlchemy sessions, the engine, table creation (`create_engine`, `create_tables`) and the schema classes are not modelled. Tables are in-memory sequences. The answers the pipeline and the factories get from the databaser are parameters, and those calls are assumed not to raise.
- Pipeline: `employ_worker`, `release_workers` and `run` are process plumbing and are not modelled. The outer loop of `produce_data` is not modelled either.
- Custom pipeline: the JSON of an API response is assumed to decode. Decoding errors are not modelled.
- Multiprocessing factories: `collect_data` of the geocoding factory, and address tuples as targets, are not modelled. Those rest on the geocoder's HTTP calls.
- Floating point: `float_precision` is not modelled, and neither is the float output of `string_to_digit`. The geocoder's `locality_is_valid` (`difflib` ratios) is not modelled. Nor are `get_coordinates`, `get_missing_components` (coordinate rounding and precision descent), `_set_ungeocoded` and `_precision`.
- Geocoder verification: only the city check of `_verify_location_data` is modelled. The locality and premise checks that follow it are not. Decoding errors of the geocoding JSON are not modelled.
- Unicode: the NFKD-and-ignore step of `string_to_ascii` is a parameter `ascii`. The model relies only on two of its properties (`Alphanumericker.AsciiStep`): its output is ASCII, and ASCII input comes back unchanged. Which base letter an accented letter becomes is therefore not modelled. Case mapping is ASCII only.
- Networker.EncodeParamShape: no space is promised only for ASCII input, or for the step that drops non-ASCII characters (`EncodeParamKeepAsciiNoSpace`). NFKD turns some characters, such as the no-break space U+00A0, into a plain space after the spaces were already replaced, so the source can send a space.
- Networker.GetGeoParams: the city is always a string. `get_geo` with a city of None raises (`None.replace` without a locality, `None in` a string with one), and the model has no such case.
- Alphanumericker.StringToDigit: the `int` output is the digits truncated at the decimal point. The source goes through `int(float(...))`, so `"0,99999999999999999"` gives 1 there and 0 here, and digits beyond the 53 bits of a double are lost there.
- Text.IsDigit: only ASCII digits count. On Python 2 unicode strings `isdigit()` also accepts other digit characters, such as Arabic-Indic digits.
- Databaser.RemoveDuplicatesDurable: the engine's delete is modelled as committed at once. SQLite locking between the session's open transaction and the engine's connection, which can make the delete wait or fail, is not modelled.
- NormalizeAddress: the regex that upper-cases Roman numerals is not modelled. Apart from that, every component is title-cased with ASCII `.title()` semantics.
- Addresser regex rewrites: the forbidden-part, `nam` → `Namestie` and street-number rewrites of the locality are the `rewrite` parameter of `Addresser.AddressCleanup.Call`, not regular expressions.
- Addresser: `normalize_address` works on its argument dict in place, while the model returns a new map, so the aliasing of the caller's dict is not modelled. `Address_cleanup` requires its components to be strings. An unset city or locality is modelled as the empty string.
- HTML parsing: a page is abstracted as its lists of `h3` hrefs and headers. BeautifulSoup is not modelled.
- Deployment and configuration: the docker-compose generators, ini parsing, logging setup, `services.py` and dynamic class loading are not modelled.

## Findings

| source | as written | input that shows it | evidently intended | confidence | as-written member | corrected member |
|---|---|---|---|---|---|---|
| scrapemeagain/dockerized/apps/urlbroker/urlbrokers.py:14-20 | the list pages are split with step `count // n`, and only a remainder below one step joins the last range, so there can be more ranges than scrapers; each dockerized scraper takes one range (examples/examplescraper/scraper.py:77-80) | 29 list pages for 10 scrapers: 14 ranges, the first ten all ending at 9 or above, so the nine lowest pages go to no scraper | one range per scraper, the ranges together covering every page | not executed | UrlBrokers.AsWrittenLeavesLowPagesExample | UrlBrokers.CorrectedCoversAll |
| scrapemeagain/util/alphanumericker.py:74-78 | after a non-digit that is not a comma, the next character is read without a length check | `"250,-"` raises `IndexError` | the end of the string counts as "not a digit", giving 250 | not executed | Alphanumericker.StringToDigitTrailingDash | Alphanumericker.StringToDigitSpec |
| scrapemeagain/util/networker.py:33, 175, 210 | `REAL_IP` is the raw body of the IP echo service, with its trailing newline, while the candidate IP is stripped before it is compared | a real IP `"1.2.3.4"` whose echoed body is `"1.2.3.4\n"` is accepted as usable | the real IP is never accepted | not executed | Networker.RealIpAsWrittenAccepted | Networker.RealIpRejected |
| scrapemeagain/databaser.py:136-151 | `_remove_duplicate_item_urls` deletes only the newest row of each duplicated URL | a URL stored 3 times is still stored twice afterwards | each URL stored once | not executed | Databaser.RemoveDuplicateItemUrlsLeavesDuplicates | Databaser.RemoveAllDuplicateItemUrlsCount |
| scrapemeagain/mprocess.py:128-130 | the error message names `self.databaser_type` rather than the rejected argument | `create_databaser("xyz")` on an ads factory reports `"ads"` | the message names the rejected type | not executed | MProcess.CreateDatabaserNamesWrongType | MProcess.CreateDatabaserDispatch |
