/** The URL-range broker of the dockerized deployment
    (scrapemeagain/dockerized/apps/urlbroker/urlbrokers.py): the list pages `[0, count)` are cut
    into contiguous chunks, one per scraper container, and handed out by a cursor. */
module UrlBrokers {
  import opened Wrappers

  /** A range of list-page numbers, `(start, end)` with `start > end` when descending. */
  type UrlsRange = (int, int)

  /** The errors the first `get_urls_range` call can raise: `count // 0`, and `range()` with a
      zero step (raised when `count < SCRAPERS_COUNT`, including `count == 0`). */
  datatype BrokerError = ZeroDivisionError | ZeroStepValueError

  /** The descending chunks the generator yields while its loop variable runs from `i` down:
      `end = i - step`, clamped to 0 once it drops below `step`; generation stops after an end of 0. */
  function Chunks(i: int, step: int): seq<UrlsRange>
    requires step > 0
    decreases i
  {
    if i <= 0 then []
    else
      var end := if i - step < step then 0 else i - step;
      [(i, end)] + (if end == 0 then [] else Chunks(i - step, step))
  }

  function Orient(r: UrlsRange, descending: bool): UrlsRange {
    if descending then r else (r.1, r.0)
  }

  function OrientAll(rs: seq<UrlsRange>, descending: bool): (os: seq<UrlsRange>)
    ensures |os| == |rs| && forall k :: 0 <= k < |rs| ==> os[k] == Orient(rs[k], descending)
  {
    if rs == [] then [] else [Orient(rs[0], descending)] + OrientAll(rs[1..], descending)
  }

  /** All ranges `generate_urls_range` yields, or the error its first step raises. */
  function GenerateUrlsRange(count: nat, scrapersCount: nat, descending: bool): Result<seq<UrlsRange>, BrokerError>
  {
    if scrapersCount == 0 then Err(ZeroDivisionError)
    else
      var step := count / scrapersCount;
      if step == 0 then Err(ZeroStepValueError)
      else Ok(OrientAll(Chunks(count, step), descending))
  }

  // ---------------------------------------------------------------------------
  // Tiling: contiguous, non-overlapping, covering [0, hi)

  /** `cs` starts at `hi`, each chunk starts where the previous one ended, every chunk is
      non-empty, and the last one ends at 0. */
  predicate Tiles(cs: seq<UrlsRange>, hi: int)
    decreases |cs|
  {
    if cs == [] then hi == 0
    else cs[0].0 == hi && cs[0].1 < cs[0].0 && Tiles(cs[1..], cs[0].1)
  }

  /** How many chunks hold the page number `x`. */
  function Holding(cs: seq<UrlsRange>, x: int): nat {
    if cs == [] then 0 else (if cs[0].1 <= x < cs[0].0 then 1 else 0) + Holding(cs[1..], x)
  }

  /** A tiling of `[0, hi)` holds every page of `[0, hi)` exactly once and nothing else. */
  lemma {:induction false} TilesCoverOnce(cs: seq<UrlsRange>, hi: int, x: int)
    requires Tiles(cs, hi)
    ensures Holding(cs, x) == (if 0 <= x < hi then 1 else 0)
    decreases |cs|
  {
    if cs != [] {
      TilesCoverOnce(cs[1..], cs[0].1, x);
      TilesBelow(cs[1..], cs[0].1);
    }
  }

  lemma {:induction false} TilesBelow(cs: seq<UrlsRange>, hi: int)
    requires Tiles(cs, hi)
    ensures hi >= 0
    decreases |cs|
  {
    if cs != [] {
      TilesBelow(cs[1..], cs[0].1);
    }
  }

  /** The generator's chunks tile `[0, i)`: the first starts at `i`, each next one starts where
      the previous ended, and the last ends at 0. */
  lemma {:induction false} ChunksTile(i: int, step: int)
    requires step > 0 && i > 0
    ensures Tiles(Chunks(i, step), i)
    decreases i
  {
    var end := if i - step < step then 0 else i - step;
    if end != 0 {
      ChunksTile(i - step, step);
    }
  }

  /** For `i = q * step + r` with `q >= 1`, there are exactly `q` chunks: chunk `k` is
      `(i - k * step, i - (k + 1) * step)`, except the last, which ends at 0. */
  lemma {:induction false} ChunksShape(i: int, q: nat, r: nat, step: int)
    requires step > 0 && q >= 1 && r < step && i == q * step + r
    ensures var cs := Chunks(i, step);
      |cs| == q &&
      (forall k :: 0 <= k < q - 1 ==> cs[k] == (i - k * step, i - (k + 1) * step)) &&
      cs[q - 1] == (step + r, 0)
    decreases q
  {
    if q == 1 {
      assert i - step < step;
    } else {
      assert i - step == (q - 1) * step + r;
      assert i - step >= step;
      ChunksShape(i - step, q - 1, r, step);
      var cs := Chunks(i, step);
      var tail := Chunks(i - step, step);
      assert cs == [(i, i - step)] + tail;
      forall k | 0 <= k < q - 1
        ensures cs[k] == (i - k * step, i - (k + 1) * step)
      {
        if k > 0 {
          assert cs[k] == tail[k - 1];
          assert i - step - (k - 1) * step == i - k * step;
          assert i - step - k * step == i - (k + 1) * step;
        }
      }
      assert cs[q - 1] == tail[q - 2];
    }
  }

  /** How many ranges the generator yields: `count // step`. */
  lemma ChunksCount(count: nat, step: int)
    requires 0 < step <= count
    ensures |Chunks(count, step)| == count / step
  {
    DivMod(count, step);
    ChunksShape(count, count / step, count % step, step);
  }

  lemma DivMod(a: nat, d: int)
    requires d > 0
    ensures a == (a / d) * d + a % d && 0 <= a % d < d
  {
  }

  /** With `step = count // n` and `r = count % n`: `count == (n + r // step) * step + r % step`. */
  lemma SplitArith(count: nat, n: nat)
    requires n > 0 && count / n > 0
    ensures var step := count / n; var r := count % n;
      count == (n + r / step) * step + r % step && 0 <= r % step < step &&
      (r / step == 0 <==> r < step)
  {
    var step := count / n;
    var r := count % n;
    DivMod(count, n);
    assert count == step * n + r;
    DivMod(r, step);
    var a := r / step;
    var b := r % step;
    assert r == a * step + b;
    assert (n + a) * step == n * step + a * step;
    if a > 0 {
      assert a * step >= step;
    }
  }

  lemma MulMono(a: int, b: int, c: int)
    requires a <= b && c >= 0
    ensures a * c <= b * c
  {
  }

  /** The ranges of `generate_urls_range` tile `[0, count)`: every list page is in exactly one
      range. Descending ranges are `(start, end)`, ascending ones `(end, start)`. */
  lemma GenerateUrlsRangeCovers(count: nat, scrapersCount: nat, descending: bool, x: int)
    requires GenerateUrlsRange(count, scrapersCount, descending).Ok?
    ensures var rs := GenerateUrlsRange(count, scrapersCount, descending).value;
      var cs := Chunks(count, count / scrapersCount);
      rs == OrientAll(cs, descending) && Tiles(cs, count) &&
      Holding(cs, x) == (if 0 <= x < count then 1 else 0)
  {
    var step := count / scrapersCount;
    ChunksTile(count, step);
    TilesCoverOnce(Chunks(count, step), count, x);
  }

  /** The generator fails exactly when there are no scrapers or fewer pages than scrapers. */
  lemma GenerateUrlsRangeFails(count: nat, scrapersCount: nat, descending: bool)
    ensures GenerateUrlsRange(count, scrapersCount, descending) == Err(ZeroDivisionError) <==> scrapersCount == 0
    ensures GenerateUrlsRange(count, scrapersCount, descending) == Err(ZeroStepValueError) <==>
      0 < scrapersCount && count < scrapersCount
  {
    if scrapersCount > 0 && count >= scrapersCount {
      assert count / scrapersCount >= 1;
    }
  }

  /** From `i = q * step + r` down, the generator yields `q` chunks. */
  lemma {:induction false} ChunksLength(i: int, q: nat, r: nat, step: int)
    requires step > 0 && q >= 1 && r < step && i == q * step + r
    ensures |Chunks(i, step)| == q
    decreases q
  {
    if q > 1 {
      assert i - step == (q - 1) * step + r;
      ChunksLength(i - step, q - 1, r, step);
    }
  }

  /** The arithmetic of `GenerateUrlsRangeCount`, on `count = n * step + r` and
      `r = a * step + b`. */
  lemma CountCore(count: int, n: nat, step: int, r: int, a: int, b: int)
    requires n > 0 && step > 0 && count == step * n + r && r >= 0 && r == a * step + b && 0 <= b < step
    ensures a >= 0 && |Chunks(count, step)| == n + a && (a == 0 <==> r < step)
  {
    if a < 0 {
      MulMono(a, -1, step);
    }
    if a >= 1 {
      MulMono(1, a, step);
    }
    assert count == (n + a) * step + b;
    ChunksLength(count, n + a, b, step);
  }

  /** What a successful `generate_urls_range` yields. */
  lemma GenerateUrlsRangeValue(count: nat, n: nat, descending: bool)
    requires GenerateUrlsRange(count, n, descending).Ok?
    ensures n > 0 && count / n > 0
    ensures GenerateUrlsRange(count, n, descending).value == OrientAll(Chunks(count, count / n), descending)
  {
  }

  /** Exactly `SCRAPERS_COUNT` ranges come out iff `count % SCRAPERS_COUNT < step`; otherwise
      there are more ranges than scrapers. */
  lemma GenerateUrlsRangeCount(count: nat, n: nat, descending: bool)
    requires GenerateUrlsRange(count, n, descending).Ok?
    ensures var rs := GenerateUrlsRange(count, n, descending).value;
      |rs| == n + (count % n) / (count / n) &&
      (|rs| == n <==> count % n < count / n)
  {
    GenerateUrlsRangeValue(count, n, descending);
    var step := count / n;
    var r := count % n;
    DivMod(count, n);
    DivMod(r, step);
    CountCore(count, n, step, r, r / step, r % step);
  }

  /** `(n * step) // n == step`. */
  lemma MulDiv(n: nat, step: int)
    requires n > 0 && step > 0
    ensures (n * step) / n == step && (n * step) % n == 0
  {
    var q := (n * step) / n;
    var r := (n * step) % n;
    DivMod(n * step, n);
    assert (q - step) * n == -r;
    if q > step {
      MulMono(1, q - step, n);
    } else if q < step {
      MulMono(1, step - q, n);
    }
  }

  /** When the page count is a multiple of `SCRAPERS_COUNT` (the documented example is 110
      pages for 10 scrapers: `(110, 99), (99, 88), ..., (11, 0)`), every scraper gets one range
      of `step` pages. */
  lemma GenerateUrlsRangeEvenSplit(n: nat, step: int)
    requires n > 0 && step > 0
    ensures var rs := GenerateUrlsRange(n * step, n, true).value;
      GenerateUrlsRange(n * step, n, true).Ok? && |rs| == n &&
      (forall k :: 0 <= k < n - 1 ==> rs[k] == (n * step - k * step, n * step - (k + 1) * step)) &&
      rs[n - 1] == (step, 0)
  {
    MulDiv(n, step);
    var cs := Chunks(n * step, step);
    assert GenerateUrlsRange(n * step, n, true) == Ok(OrientAll(cs, true));
    OrientIdentity(cs);
    ChunksShape(n * step, n, 0, step);
  }

  // ---------------------------------------------------------------------------
  // Each scraper container asks for one range.

  /** The arithmetic of `AsWrittenLeavesLowPages`, on `count = n * step + r` and
      `r = a * step + b` with `r >= step`. */
  lemma LowPagesCore(count: int, n: nat, step: int, r: int, a: int, b: int)
    requires n > 0 && step > 0 && count == n * step + r && r == a * step + b && 0 <= b < step && r >= step
    ensures var cs := Chunks(count, step);
      |cs| == n + a && a >= 1 && forall k :: 0 <= k < n ==> cs[k].1 >= r
  {
    if a <= 0 {
      MulMono(a, 0, step);
    }
    assert count == (n + a) * step + b;
    ChunksShape(count, n + a, b, step);
    var cs := Chunks(count, step);
    forall k | 0 <= k < n ensures cs[k].1 >= r {
      assert cs[k].1 == count - (k + 1) * step;
      MulMono(k + 1, n, step);
    }
  }

  /** With the ranges as written, when `count % n >= step` the first `n` ranges (one per
      scraper) all end at or above `count % n`, so list pages `[0, count % n)` are never
      handed to any scraper. */
  lemma AsWrittenLeavesLowPages(count: nat, n: nat)
    requires GenerateUrlsRange(count, n, true).Ok?
    requires count % n >= count / n
    ensures var rs := GenerateUrlsRange(count, n, true).value;
      |rs| > n && forall k :: 0 <= k < n ==> rs[k].1 >= count % n > 0
  {
    var step := count / n;
    var r := count % n;
    DivMod(count, n);
    DivMod(r, step);
    LowPagesCore(count, n, step, r, r / step, r % step);
    OrientIdentity(Chunks(count, step));
  }

  /** 29 list pages for 10 scrapers: step 2, 14 ranges; the first ten all end at 9 or above,
      so the nine lowest pages are handed to no scraper. */
  lemma AsWrittenLeavesLowPagesExample()
    ensures var rs := GenerateUrlsRange(29, 10, true).value;
      GenerateUrlsRange(29, 10, true).Ok? && |rs| == 14 && forall k :: 0 <= k < 10 ==> rs[k].1 >= 9
  {
    assert 29 / 10 == 2 && 29 % 10 == 9;
    AsWrittenLeavesLowPages(29, 10);
    GenerateUrlsRangeCount(29, 10, true);
  }

  /** `n` chunks of `step` pages from `i` down, the last one absorbing the remainder. */
  function SplitN(i: int, step: int, n: nat): seq<UrlsRange>
    requires n >= 1
    decreases n
  {
    if n == 1 then [(i, 0)] else [(i, i - step)] + SplitN(i - step, step, n - 1)
  }

  /** The range split the broker evidently intends: exactly one range per scraper, the last one
      reaching down to 0. */
  function GenerateUrlsRangeCorrected(count: nat, scrapersCount: nat, descending: bool): Result<seq<UrlsRange>, BrokerError>
  {
    if scrapersCount == 0 then Err(ZeroDivisionError)
    else
      var step := count / scrapersCount;
      if step == 0 then Err(ZeroStepValueError)
      else Ok(OrientAll(SplitN(count, step, scrapersCount), descending))
  }

  lemma {:induction false} SplitNTiles(i: int, step: int, n: nat)
    requires n >= 1 && step > 0 && i >= n * step
    ensures |SplitN(i, step, n)| == n && Tiles(SplitN(i, step, n), i)
    decreases n
  {
    if n > 1 {
      assert i - step >= (n - 1) * step;
      SplitNTiles(i - step, step, n - 1);
    }
  }

  /** The corrected split gives every scraper exactly one range, and together the ranges hold
      every list page exactly once. */
  lemma CorrectedCoversAll(count: nat, n: nat, x: int)
    requires GenerateUrlsRangeCorrected(count, n, true).Ok?
    ensures var rs := GenerateUrlsRangeCorrected(count, n, true).value;
      |rs| == n && Tiles(rs, count) && Holding(rs, x) == (if 0 <= x < count then 1 else 0)
  {
    var step := count / n;
    assert count == n * step + count % n;
    SplitNTiles(count, step, n);
    var cs := SplitN(count, step, n);
    OrientIdentity(cs);
    TilesCoverOnce(cs, count, x);
  }

  lemma {:induction false} OrientIdentity(rs: seq<UrlsRange>)
    ensures OrientAll(rs, true) == rs
  {
    if rs != [] {
      OrientIdentity(rs[1..]);
    }
  }

  /** Where both split the pages into exactly one range per scraper, they agree. */
  lemma CorrectedAgrees(count: nat, n: nat, descending: bool)
    requires GenerateUrlsRange(count, n, descending).Ok?
    requires count % n < count / n
    ensures GenerateUrlsRangeCorrected(count, n, descending) == GenerateUrlsRange(count, n, descending)
  {
    var step := count / n;
    var r := count % n;
    LastStart(count, n);
    ChunksShape(count, n, r, step);
    SplitNShape(count, step, n);
    var cs := Chunks(count, step);
    var ss := SplitN(count, step, n);
    assert cs[n - 1] == ss[n - 1];
    assert cs == ss;
  }

  lemma LastStart(count: nat, n: nat)
    requires n > 0
    ensures count == n * (count / n) + count % n
    ensures count - (n - 1) * (count / n) == count / n + count % n
  {
    DivMod(count, n);
    var step := count / n;
    assert (n - 1) * step == n * step - step;
  }

  lemma {:induction false} SplitNShape(i: int, step: int, n: nat)
    requires n >= 1
    ensures var ss := SplitN(i, step, n);
      |ss| == n && (forall k :: 0 <= k < n - 1 ==> ss[k] == (i - k * step, i - (k + 1) * step)) &&
      ss[n - 1] == (i - (n - 1) * step, 0)
    decreases n
  {
    if n > 1 {
      SplitNShape(i - step, step, n - 1);
      var ss := SplitN(i, step, n);
      var tail := SplitN(i - step, step, n - 1);
      forall k | 0 <= k < n - 1 ensures ss[k] == (i - k * step, i - (k + 1) * step) {
        if k > 0 {
          assert ss[k] == tail[k - 1];
          assert i - step - (k - 1) * step == i - k * step;
          assert i - step - k * step == i - (k + 1) * step;
        }
      }
      assert ss[n - 1] == tail[n - 2];
      assert i - step - (n - 2) * step == i - (n - 1) * step;
    }
  }

  // ---------------------------------------------------------------------------
  // The cursor of `get_urls_range`

  /** The cursor's state: whether the generator exists yet, and the ranges it has still to yield. */
  datatype Cursor = Cursor(started: bool, pending: seq<UrlsRange>)

  /** One `get_urls_range` call: the first call creates the generator and runs its first step,
      which may raise; every call after exhaustion returns `(0, 0)`. */
  function CursorNext(c: Cursor, count: nat, scrapersCount: nat, descending: bool): (Result<UrlsRange, BrokerError>, Cursor)
  {
    var pending := if c.started then c.pending else
      match GenerateUrlsRange(count, scrapersCount, descending)
      case Ok(rs) => rs
      case Err(_) => [];
    var err := !c.started && GenerateUrlsRange(count, scrapersCount, descending).Err?;
    if err then (Err(GenerateUrlsRange(count, scrapersCount, descending).error), Cursor(true, []))
    else if pending == [] then (Ok((0, 0)), Cursor(true, []))
    else (Ok(pending[0]), Cursor(true, pending[1..]))
  }

  /** The results of `m` successive calls. */
  function CursorCalls(c: Cursor, m: nat, count: nat, scrapersCount: nat, descending: bool): (rs: seq<Result<UrlsRange, BrokerError>>)
    ensures |rs| == m
    decreases m
  {
    if m == 0 then []
    else
      var (r, c') := CursorNext(c, count, scrapersCount, descending);
      [r] + CursorCalls(c', m - 1, count, scrapersCount, descending)
  }

  lemma {:induction false} PendingCalls(pending: seq<UrlsRange>, m: nat, count: nat, n: nat, descending: bool)
    ensures var rs := CursorCalls(Cursor(true, pending), m, count, n, descending);
      |rs| == m && forall k :: 0 <= k < m ==> rs[k] == Ok(if k < |pending| then pending[k] else (0, 0))
    decreases m
  {
    if m > 0 {
      var c' := CursorNext(Cursor(true, pending), count, n, descending).1;
      PendingCalls(c'.pending, m - 1, count, n, descending);
      var rs := CursorCalls(Cursor(true, pending), m, count, n, descending);
      var tail := CursorCalls(c', m - 1, count, n, descending);
      forall k | 0 <= k < m ensures rs[k] == Ok(if k < |pending| then pending[k] else (0, 0)) {
        if k > 0 {
          assert rs[k] == tail[k - 1];
        }
      }
    }
  }

  /** A fresh cursor hands out the generated ranges in order, one per call, and `(0, 0)` from
      then on; if generation fails, only the first call raises and every later call returns
      `(0, 0)`. */
  lemma CursorHandsOutInOrder(m: nat, count: nat, n: nat, descending: bool)
    requires m >= 1
    ensures var rs := CursorCalls(Cursor(false, []), m, count, n, descending);
      match GenerateUrlsRange(count, n, descending)
      case Ok(ranges) =>
        forall k :: 0 <= k < m ==> rs[k] == Ok(if k < |ranges| then ranges[k] else (0, 0))
      case Err(e) =>
        rs[0] == Err(e) && forall k :: 1 <= k < m ==> rs[k] == Ok((0, 0))
  {
    var (r0, c1) := CursorNext(Cursor(false, []), count, n, descending);
    PendingCalls(c1.pending, m - 1, count, n, descending);
    var rs := CursorCalls(Cursor(false, []), m, count, n, descending);
    var tail := CursorCalls(c1, m - 1, count, n, descending);
    assert rs == [r0] + tail;
    assert |rs| == m;
    match GenerateUrlsRange(count, n, descending)
    case Ok(ranges) =>
      forall k | 0 <= k < m ensures rs[k] == Ok(if k < |ranges| then ranges[k] else (0, 0)) {
        if k > 0 {
          assert rs[k] == tail[k - 1];
        }
      }
    case Err(e) =>
      forall k | 1 <= k < m ensures rs[k] == Ok((0, 0)) {
        assert rs[k] == tail[k - 1];
      }
  }

  /** `UrlsRangeManager`, and `ListUrlsBroker` when `urlsCount` is the scraper's list count. */
  class UrlsRangeManager {
    const descending: bool
    /** `get_urls_count()`: 0 for the base class, `scraper.get_lists_count()` for `ListUrlsBroker`. */
    const urlsCount: nat
    /** `Config.SCRAPERS_COUNT`. */
    const scrapersCount: nat
    /** Whether `_urls_range` holds a generator yet. */
    var started: bool
    /** The ranges that generator has still to yield. */
    var pending: seq<UrlsRange>

    function State(): Cursor
      reads this
    {
      Cursor(started, pending)
    }

    constructor (descending: bool, urlsCount: nat, scrapersCount: nat)
      ensures this.descending == descending && this.urlsCount == urlsCount && this.scrapersCount == scrapersCount
      ensures State() == Cursor(false, [])
    {
      this.descending := descending;
      this.urlsCount := urlsCount;
      this.scrapersCount := scrapersCount;
      started := false;
      pending := [];
    }

    /** `get_urls_range`. */
    method GetUrlsRange() returns (r: Result<UrlsRange, BrokerError>)
      modifies this
      ensures (r, State()) == CursorNext(old(State()), urlsCount, scrapersCount, descending)
    {
      if !started {
        started := true;
        var generated := GenerateUrlsRange(urlsCount, scrapersCount, descending);
        if generated.Err? {
          pending := [];
          return Err(generated.error);
        }
        pending := generated.value;
      }
      if pending == [] {
        r := Ok((0, 0));
      } else {
        r := Ok(pending[0]);
        pending := pending[1..];
      }
    }
  }
}
