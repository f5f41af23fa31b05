/** Transaction and persistence bookkeeping of scrapemeagain/databaser.py. The SQLite tables are
    in-memory sequences: the session sees its own uncommitted rows, a commit makes them durable
    and a rollback returns to the last committed tables. */
module Databaser {
  import opened Wrappers
  import opened BaseScraper

  /** The two tables a databaser writes to. */
  datatype Table = ItemUrlsTable | ItemDataTable

  /** A row of the item URL table: its autoincrement id and its `url` column (NULL when the
      inserted dict has no `"url"` key). */
  datatype UrlRow = UrlRow(id: nat, url: Option<string>)

  /** The tables as one session sees them, with the next autoincrement id of the URL table. */
  datatype Tables = Tables(urls: seq<UrlRow>, data: seq<Record>, nextId: nat)

  /** The settings a databaser is built with: whether it is the dockerized hybrid that stores
      item data remotely, and `transaction_items_max`. */
  datatype DbConfig = DbConfig(dockerized: bool, transactionItemsMax: int)

  /** The observable state of a databaser: `transaction_items`, the session's tables, the tables
      as of the last commit, what was sent to the remote data store and how often the remote
      store was asked to commit. */
  datatype DbState = DbState(transactionItems: nat, session: Tables, committed: Tables, remoteData: seq<Record>, remoteCommits: nat)

  const NoTables := Tables([], [], 1)

  /** Ids grow along the URL table and stay below the next id. */
  predicate IdsIncreasing(rows: seq<UrlRow>) {
    forall i, j :: 0 <= i < j < |rows| ==> rows[i].id < rows[j].id
  }

  predicate TablesValid(t: Tables) {
    IdsIncreasing(t.urls) && forall i :: 0 <= i < |t.urls| ==> t.urls[i].id < t.nextId
  }

  // ---------------------------------------------------------------------------
  // Specification functions

  /** `commit`: the dockerized databaser first asks the remote store to commit; then a
      successful commit makes the session durable and resets the counter, and a failed one rolls
      the session back and leaves the counter alone. */
  function AfterCommit(s: DbState, cfg: DbConfig, ok: bool): DbState {
    var s1 := if cfg.dockerized then s.(remoteCommits := s.remoteCommits + 1) else s;
    if ok then s1.(transactionItems := 0, committed := s1.session) else s1.(session := s1.committed)
  }

  /** `manage_transaction`: count one item and commit once the count exceeds the maximum. */
  function AfterManageTransaction(s: DbState, cfg: DbConfig, ok: bool): DbState {
    var s1 := s.(transactionItems := s.transactionItems + 1);
    if s1.transactionItems > cfg.transactionItemsMax then AfterCommit(s1, cfg, ok) else s1
  }

  /** `_actually_insert`: a new row at the end of the table. */
  function ActuallyInsert(t: Tables, data: Record, table: Table): Tables {
    match table
    case ItemUrlsTable =>
      t.(urls := t.urls + [UrlRow(t.nextId, if "url" in data then Some(data["url"]) else None)], nextId := t.nextId + 1)
    case ItemDataTable => t.(data := t.data + [data])
  }

  /** `insert` (with the dockerized override, where a missing table means the remote store):
      store the row, then manage the transaction. */
  function AfterInsert(s: DbState, cfg: DbConfig, data: Record, table: Option<Table>, ok: bool): DbState
    requires cfg.dockerized || table.Some?
  {
    var s1 := match table
      case None => s.(remoteData := s.remoteData + [data])
      case Some(t) => s.(session := ActuallyInsert(s.session, data, t));
    AfterManageTransaction(s1, cfg, ok)
  }

  /** `insert_multiple`: `insert` for each item in order. */
  function AfterInsertMultiple(s: DbState, cfg: DbConfig, items: seq<Record>, table: Option<Table>, ok: bool): DbState
    requires cfg.dockerized || table.Some?
    decreases |items|
  {
    if items == [] then s
    else AfterInsertMultiple(AfterInsert(s, cfg, items[0], table, ok), cfg, items[1..], table, ok)
  }

  /** The rows whose url differs from `url`, in order. */
  function WithoutUrl(rows: seq<UrlRow>, url: Option<string>): seq<UrlRow> {
    if rows == [] then []
    else (if rows[0].url == url then [] else [rows[0]]) + WithoutUrl(rows[1..], url)
  }

  /** `delete_url`: delete the rows of that URL and count one item, with no commit check. */
  function AfterDeleteUrl(s: DbState, url: string): DbState {
    s.(session := s.session.(urls := WithoutUrl(s.session.urls, Some(url))),
       transactionItems := s.transactionItems + 1)
  }

  function CountUrl(rows: seq<UrlRow>, url: Option<string>): nat {
    if rows == [] then 0 else (if rows[0].url == url then 1 else 0) + CountUrl(rows[1..], url)
  }

  function CountIdUrl(rows: seq<UrlRow>, url: Option<string>, id: nat): nat {
    if rows == [] then 0
    else (if rows[0].url == url && rows[0].id == id then 1 else 0) + CountIdUrl(rows[1..], url, id)
  }

  /** `MAX(id)` over the rows of one URL (0 when there are none). */
  function MaxId(rows: seq<UrlRow>, url: Option<string>): nat {
    if rows == [] then 0
    else
      var m := MaxId(rows[1..], url);
      if rows[0].url == url && (CountUrl(rows[1..], url) == 0 || rows[0].id > m) then rows[0].id else m
  }

  /** `MIN(id)` over the rows of one URL (0 when there are none). */
  function MinId(rows: seq<UrlRow>, url: Option<string>): nat {
    if rows == [] then 0
    else
      var m := MinId(rows[1..], url);
      if rows[0].url == url && (CountUrl(rows[1..], url) == 0 || rows[0].id < m) then rows[0].id else m
  }

  /** Whether the duplicate-removal statement deletes `r`: it is the newest row of a URL that
      has more than one row in `all`. */
  predicate NewestDuplicate(all: seq<UrlRow>, r: UrlRow) {
    CountUrl(all, r.url) > 1 && r.id == MaxId(all, r.url)
  }

  function DropNewestDuplicates(all: seq<UrlRow>, rows: seq<UrlRow>): seq<UrlRow> {
    if rows == [] then []
    else (if NewestDuplicate(all, rows[0]) then [] else [rows[0]]) + DropNewestDuplicates(all, rows[1..])
  }

  /** `_remove_duplicate_item_urls` as written: delete the row with the largest id of every URL
      that has more than one row. */
  function DuplicatesRemoved(rows: seq<UrlRow>): seq<UrlRow> {
    DropNewestDuplicates(rows, rows)
  }

  function KeepOldest(all: seq<UrlRow>, rows: seq<UrlRow>): seq<UrlRow> {
    if rows == [] then []
    else (if rows[0].id == MinId(all, rows[0].url) then [rows[0]] else []) + KeepOldest(all, rows[1..])
  }

  /** Duplicate removal as evidently intended: keep only the oldest row of every URL. */
  function AllDuplicatesRemoved(rows: seq<UrlRow>): seq<UrlRow> {
    KeepOldest(rows, rows)
  }

  function Reverse<T>(xs: seq<T>): seq<T> {
    if xs == [] then [] else Reverse(xs[1..]) + [xs[0]]
  }

  function UrlsOf(rows: seq<UrlRow>): seq<Option<string>> {
    if rows == [] then [] else [rows[0].url] + UrlsOf(rows[1..])
  }

  /** `_remove_duplicate_item_urls`: the statement runs through `engine.execute`, on a
      connection of its own that autocommits. It picks the rows to delete among the committed
      rows, deletes them durably, and the session no longer sees them. */
  function AfterRemoveDuplicates(s: DbState): DbState {
    s.(committed := s.committed.(urls := DuplicatesRemoved(s.committed.urls)),
       session := s.session.(urls := DropNewestDuplicates(s.committed.urls, s.session.urls)))
  }

  /** `get_item_urls`: remove duplicates, then the URLs the session sees, ordered by id, newest
      first. */
  function AfterGetItemUrls(s: DbState): (DbState, seq<Option<string>>) {
    var s1 := AfterRemoveDuplicates(s);
    (s1, UrlsOf(Reverse(s1.session.urls)))
  }

  // ---------------------------------------------------------------------------
  // Transactions

  /** A successful commit leaves nothing pending and a zero counter; a failed one restores the
      committed tables and keeps the counter; the dockerized databaser also commits remotely,
      exactly once per call. */
  lemma CommitOutcome(s: DbState, cfg: DbConfig, ok: bool)
    ensures var s' := AfterCommit(s, cfg, ok);
      (ok ==> s'.transactionItems == 0 && s'.committed == s'.session == s.session) &&
      (!ok ==> s'.transactionItems == s.transactionItems && s'.session == s'.committed == s.committed) &&
      s'.remoteCommits == s.remoteCommits + (if cfg.dockerized then 1 else 0) &&
      s'.remoteData == s.remoteData
  {
  }

  /** Whatever the counter was (`delete_url` and a failed commit leave it past the maximum),
      counting an item commits exactly when the new count exceeds the maximum: below it only the
      counter moves; past it a successful commit makes the session durable and resets the
      counter, and a failed one rolls the session back and keeps the new count. */
  lemma ManageTransactionBound(s: DbState, cfg: DbConfig, ok: bool)
    ensures var s' := AfterManageTransaction(s, cfg, ok);
      var counted := s.(transactionItems := s.transactionItems + 1);
      var commits := s.transactionItems + 1 > cfg.transactionItemsMax;
      (!commits ==> s' == counted) &&
      (commits ==> s' == AfterCommit(counted, cfg, ok)) &&
      (commits && ok ==> s'.transactionItems == 0 && s'.committed == s'.session == s.session) &&
      (commits && !ok ==> s'.transactionItems == s.transactionItems + 1 && s'.session == s'.committed == s.committed) &&
      s'.remoteCommits == s.remoteCommits + (if commits && cfg.dockerized then 1 else 0) &&
      s'.remoteData == s.remoteData
  {
    CommitOutcome(s.(transactionItems := s.transactionItems + 1), cfg, ok);
  }

  /** At most `transaction_items` rows of item data are not yet durable: the committed data is a
      prefix of the session's data, short by no more than the counter. */
  predicate DataDurable(s: DbState) {
    |s.committed.data| <= |s.session.data| &&
    s.committed.data == s.session.data[..|s.committed.data|] &&
    |s.session.data| - |s.committed.data| <= s.transactionItems
  }

  /** Inserting item data one row at a time, with every commit succeeding, appends the items in
      order, keeps the counter at most the maximum, commits nothing while the counter stays within
      it, and keeps no more rows at risk than the counter says. */
  lemma {:induction false} InsertMultipleData(s: DbState, cfg: DbConfig, items: seq<Record>)
    requires 0 <= cfg.transactionItemsMax && s.transactionItems <= cfg.transactionItemsMax
    requires DataDurable(s)
    ensures var s' := AfterInsertMultiple(s, cfg, items, Some(ItemDataTable), true);
      s'.session.data == s.session.data + items &&
      s'.session.urls == s.session.urls &&
      s'.transactionItems <= cfg.transactionItemsMax &&
      (s.transactionItems + |items| <= cfg.transactionItemsMax ==>
        s'.transactionItems == s.transactionItems + |items| && s'.committed == s.committed) &&
      DataDurable(s')
    decreases |items|
  {
    if items != [] {
      var s1 := AfterInsert(s, cfg, items[0], Some(ItemDataTable), true);
      ManageTransactionBound(s.(session := ActuallyInsert(s.session, items[0], ItemDataTable)), cfg, true);
      assert DataDurable(s1) by {
        if s1.transactionItems != 0 {
          assert s1.committed == s.committed;
          assert s1.session.data == s.session.data + [items[0]];
          assert s.session.data == s1.session.data[..|s.session.data|];
        }
      }
      InsertMultipleData(s1, cfg, items[1..]);
      assert s.session.data + [items[0]] + items[1..] == s.session.data + items;
    }
  }

  /** Item URLs get fresh ids in insertion order, so the ids keep increasing. */
  lemma InsertUrlKeepsIdsIncreasing(t: Tables, data: Record)
    requires TablesValid(t)
    ensures var t' := ActuallyInsert(t, data, ItemUrlsTable);
      TablesValid(t') && t'.urls[..|t.urls|] == t.urls && t'.urls[|t.urls|].id == t.nextId &&
      ("url" in data ==> t'.urls[|t.urls|].url == Some(data["url"])) &&
      ("url" !in data ==> t'.urls[|t.urls|].url == None)
  {
  }

  // ---------------------------------------------------------------------------
  // delete_url

  lemma {:induction false} CountsOfAppend(a: seq<UrlRow>, b: seq<UrlRow>, u: Option<string>, id: nat)
    ensures CountUrl(a + b, u) == CountUrl(a, u) + CountUrl(b, u)
    ensures CountIdUrl(a + b, u, id) == CountIdUrl(a, u, id) + CountIdUrl(b, u, id)
  {
    if a == [] {
      assert a + b == b;
    } else {
      CountsOfAppend(a[1..], b, u, id);
      assert (a + b)[0] == a[0];
      assert (a + b)[1..] == a[1..] + b;
    }
  }

  lemma {:induction false} WithoutUrlMembers(rows: seq<UrlRow>, url: Option<string>)
    ensures forall r :: r in WithoutUrl(rows, url) <==> r in rows && r.url != url
  {
    if rows != [] {
      WithoutUrlMembers(rows[1..], url);
      assert rows == [rows[0]] + rows[1..];
    }
  }

  lemma {:induction false} WithoutUrlCounts(rows: seq<UrlRow>, url: Option<string>, u: Option<string>)
    ensures CountUrl(WithoutUrl(rows, url), u) == if u == url then 0 else CountUrl(rows, u)
  {
    if rows != [] {
      WithoutUrlCounts(rows[1..], url, u);
      CountsOfAppend(if rows[0].url == url then [] else [rows[0]], WithoutUrl(rows[1..], url), u, 0);
    }
  }

  lemma {:induction false} WithoutUrlIncreasing(rows: seq<UrlRow>, url: Option<string>)
    requires IdsIncreasing(rows)
    ensures IdsIncreasing(WithoutUrl(rows, url))
  {
    if rows != [] {
      assert IdsIncreasing(rows[1..]);
      WithoutUrlIncreasing(rows[1..], url);
      WithoutUrlMembers(rows[1..], url);
      var rest := WithoutUrl(rows[1..], url);
      var w := WithoutUrl(rows, url);
      if rows[0].url != url {
        assert w == [rows[0]] + rest;
        forall i, j | 0 <= i < j < |w|
          ensures w[i].id < w[j].id
        {
          if i == 0 {
            assert rest[j - 1] in rows[1..];
            var k :| 0 <= k < |rows[1..]| && rows[1..][k] == rest[j - 1];
            assert rows[k + 1] == w[j];
          } else {
            assert w[i] == rest[i - 1] && w[j] == rest[j - 1];
          }
        }
      } else {
        assert w == rest;
      }
    }
  }

  /** `delete_url` removes every row of that URL and nothing else, counts one item and never
      commits, so the counter can pass the maximum. */
  lemma DeleteUrlEffect(s: DbState, url: string)
    ensures var s' := AfterDeleteUrl(s, url);
      (forall r :: r in s'.session.urls <==> r in s.session.urls && r.url != Some(url)) &&
      CountUrl(s'.session.urls, Some(url)) == 0 &&
      s'.session.data == s.session.data && s'.committed == s.committed &&
      s'.transactionItems == s.transactionItems + 1
  {
    WithoutUrlMembers(s.session.urls, Some(url));
    WithoutUrlCounts(s.session.urls, Some(url), Some(url));
  }

  // ---------------------------------------------------------------------------
  // Duplicate removal

  lemma {:induction false} DropNewestCount(all: seq<UrlRow>, rows: seq<UrlRow>, u: Option<string>)
    ensures CountUrl(DropNewestDuplicates(all, rows), u) ==
      CountUrl(rows, u) - (if CountUrl(all, u) > 1 then CountIdUrl(rows, u, MaxId(all, u)) else 0)
    ensures CountIdUrl(rows, u, MaxId(all, u)) <= CountUrl(rows, u)
  {
    if rows != [] {
      DropNewestCount(all, rows[1..], u);
      CountsOfAppend(if NewestDuplicate(all, rows[0]) then [] else [rows[0]], DropNewestDuplicates(all, rows[1..]), u, 0);
    }
  }

  lemma {:induction false} KeepOldestCount(all: seq<UrlRow>, rows: seq<UrlRow>, u: Option<string>)
    ensures CountUrl(KeepOldest(all, rows), u) == CountIdUrl(rows, u, MinId(all, u))
  {
    if rows != [] {
      KeepOldestCount(all, rows[1..], u);
      CountsOfAppend(if rows[0].id == MinId(all, rows[0].url) then [rows[0]] else [], KeepOldest(all, rows[1..]), u, 0);
    }
  }

  predicate UniqueIds(rows: seq<UrlRow>) {
    forall i, j :: 0 <= i < j < |rows| ==> rows[i].id != rows[j].id
  }

  lemma {:induction false} CountIdUrlAbsent(rows: seq<UrlRow>, u: Option<string>, id: nat)
    requires forall k :: 0 <= k < |rows| ==> rows[k].id != id
    ensures CountIdUrl(rows, u, id) == 0
  {
    if rows != [] {
      CountIdUrlAbsent(rows[1..], u, id);
    }
  }

  /** With unique ids, at most one row has a given id. */
  lemma {:induction false} CountIdUrlAtMostOne(rows: seq<UrlRow>, u: Option<string>, id: nat)
    requires UniqueIds(rows)
    ensures CountIdUrl(rows, u, id) <= 1
  {
    if rows != [] {
      assert UniqueIds(rows[1..]);
      CountIdUrlAtMostOne(rows[1..], u, id);
      if rows[0].url == u && rows[0].id == id {
        CountIdUrlAbsent(rows[1..], u, id);
      }
    }
  }

  /** The largest and the smallest id of a URL that has rows belong to one of them. */
  lemma {:induction false} ExtremeIdsAttained(rows: seq<UrlRow>, u: Option<string>)
    requires CountUrl(rows, u) > 0
    ensures CountIdUrl(rows, u, MaxId(rows, u)) >= 1
    ensures CountIdUrl(rows, u, MinId(rows, u)) >= 1
  {
    if CountUrl(rows[1..], u) > 0 {
      ExtremeIdsAttained(rows[1..], u);
    }
  }

  /** As written, each call deletes exactly one row of every URL that has more than one, and
      none of the others. */
  lemma RemoveDuplicateItemUrlsCount(rows: seq<UrlRow>, u: Option<string>)
    requires UniqueIds(rows)
    ensures CountUrl(DuplicatesRemoved(rows), u) ==
      if CountUrl(rows, u) > 1 then CountUrl(rows, u) - 1 else CountUrl(rows, u)
  {
    DropNewestCount(rows, rows, u);
    if CountUrl(rows, u) > 1 {
      ExtremeIdsAttained(rows, u);
      CountIdUrlAtMostOne(rows, u, MaxId(rows, u));
    }
  }

  /** A URL stored three times is still stored twice after duplicate removal, so `get_item_urls`
      hands it out twice. */
  lemma RemoveDuplicateItemUrlsLeavesDuplicates()
    ensures var rows := [UrlRow(1, Some("u")), UrlRow(2, Some("u")), UrlRow(3, Some("u"))];
      CountUrl(DuplicatesRemoved(rows), Some("u")) == 2
  {
    var rows := [UrlRow(1, Some("u")), UrlRow(2, Some("u")), UrlRow(3, Some("u"))];
    assert CountUrl(rows, Some("u")) == 3;
    RemoveDuplicateItemUrlsCount(rows, Some("u"));
  }

  /** The intended removal leaves exactly one row of every stored URL. */
  lemma RemoveAllDuplicateItemUrlsCount(rows: seq<UrlRow>, u: Option<string>)
    requires UniqueIds(rows)
    ensures CountUrl(AllDuplicatesRemoved(rows), u) == if CountUrl(rows, u) > 0 then 1 else 0
  {
    KeepOldestCount(rows, rows, u);
    if CountUrl(rows, u) > 0 {
      ExtremeIdsAttained(rows, u);
      CountIdUrlAtMostOne(rows, u, MinId(rows, u));
    } else {
      CountIdUrlZero(rows, u, MinId(rows, u));
    }
  }

  lemma {:induction false} CountIdUrlZero(rows: seq<UrlRow>, u: Option<string>, id: nat)
    requires CountUrl(rows, u) == 0
    ensures CountIdUrl(rows, u, id) == 0
  {
    if rows != [] {
      CountIdUrlZero(rows[1..], u, id);
    }
  }

  // ---------------------------------------------------------------------------
  // get_item_urls ordering

  /** The rows kept are exactly the rows that are not the newest copy of a duplicated URL. */
  lemma {:induction false} DropNewestMembers(all: seq<UrlRow>, rows: seq<UrlRow>)
    ensures forall r :: r in DropNewestDuplicates(all, rows) ==> r in rows && !NewestDuplicate(all, r)
    ensures forall r :: r in rows && !NewestDuplicate(all, r) ==> r in DropNewestDuplicates(all, rows)
  {
    if rows != [] {
      DropNewestMembers(all, rows[1..]);
      forall r | r in rows && !NewestDuplicate(all, r) ensures r in DropNewestDuplicates(all, rows) {
        if r != rows[0] {
          assert r in rows[1..];
        }
      }
    }
  }

  /** Dropping rows keeps the ids increasing. */
  lemma {:induction false} DropNewestSubsequence(all: seq<UrlRow>, rows: seq<UrlRow>)
    requires IdsIncreasing(rows)
    ensures IdsIncreasing(DropNewestDuplicates(all, rows))
    ensures forall r :: r in DropNewestDuplicates(all, rows) ==> r in rows && !NewestDuplicate(all, r)
    ensures forall r :: r in rows && !NewestDuplicate(all, r) ==> r in DropNewestDuplicates(all, rows)
  {
    DropNewestMembers(all, rows);
    if rows != [] {
      assert IdsIncreasing(rows[1..]);
      DropNewestSubsequence(all, rows[1..]);
      var rest := DropNewestDuplicates(all, rows[1..]);
      forall r | r in rest ensures rows[0].id < r.id {
        var k :| 0 <= k < |rows[1..]| && rows[1..][k] == r;
        assert rows[k + 1] == r;
      }
    }
  }

  lemma {:induction false} ReverseShape<T>(xs: seq<T>)
    ensures |Reverse(xs)| == |xs|
    ensures forall i :: 0 <= i < |xs| ==> Reverse(xs)[i] == xs[|xs| - 1 - i]
  {
    if xs != [] {
      ReverseShape(xs[1..]);
    }
  }

  lemma {:induction false} UrlsOfShape(rows: seq<UrlRow>)
    ensures |UrlsOf(rows)| == |rows|
    ensures forall i :: 0 <= i < |rows| ==> UrlsOf(rows)[i] == rows[i].url
  {
    if rows != [] {
      UrlsOfShape(rows[1..]);
    }
  }

  /** Duplicate removal is durable at once: the committed rows lose their newest duplicates, so
      a later failed commit cannot bring them back; the session stops seeing exactly those rows,
      and with nothing pending it sees the committed result. The counter and the item data are
      not touched. */
  lemma RemoveDuplicatesDurable(s: DbState, cfg: DbConfig)
    requires IdsIncreasing(s.session.urls) && IdsIncreasing(s.committed.urls)
    ensures var s' := AfterRemoveDuplicates(s);
      s'.committed.urls == DuplicatesRemoved(s.committed.urls) &&
      IdsIncreasing(s'.committed.urls) && IdsIncreasing(s'.session.urls) &&
      (forall r :: r in s'.session.urls <==> r in s.session.urls && !NewestDuplicate(s.committed.urls, r)) &&
      (s.session.urls == s.committed.urls ==> s'.session.urls == s'.committed.urls) &&
      AfterCommit(s', cfg, false).session.urls == DuplicatesRemoved(s.committed.urls) &&
      s'.transactionItems == s.transactionItems && s'.session.data == s.session.data &&
      s'.committed.data == s.committed.data
  {
    DropNewestSubsequence(s.committed.urls, s.committed.urls);
    DropNewestSubsequence(s.committed.urls, s.session.urls);
  }

  /** `get_item_urls` returns, newest row first, the URL of every row the session still sees
      once duplicate removal has deleted the newest committed copy of each duplicated URL. */
  lemma GetItemUrlsOrder(s: DbState)
    requires IdsIncreasing(s.session.urls)
    ensures var (s', urls) := AfterGetItemUrls(s);
      var rows := s'.session.urls;
      s' == AfterRemoveDuplicates(s) &&
      IdsIncreasing(rows) &&
      (forall r :: r in rows <==> r in s.session.urls && !NewestDuplicate(s.committed.urls, r)) &&
      |urls| == |rows| &&
      forall i :: 0 <= i < |urls| ==> urls[i] == rows[|rows| - 1 - i].url
  {
    var rows := DropNewestDuplicates(s.committed.urls, s.session.urls);
    DropNewestSubsequence(s.committed.urls, s.session.urls);
    ReverseShape(rows);
    UrlsOfShape(Reverse(rows));
  }

  // ---------------------------------------------------------------------------
  // The databaser object

  /** `BaseDatabaser`, and with `dockerized` set its `DockerizedDatabaser` subclass. */
  class BaseDatabaser {
    const cfg: DbConfig
    var transactionItems: nat
    var session: Tables
    var committed: Tables
    var remoteData: seq<Record>
    var remoteCommits: nat

    function State(): DbState
      reads this
    {
      DbState(transactionItems, session, committed, remoteData, remoteCommits)
    }

    predicate Valid()
      reads this
    {
      TablesValid(session) && TablesValid(committed)
    }

    constructor (cfg: DbConfig)
      ensures Valid() && this.cfg == cfg && State() == DbState(0, NoTables, NoTables, [], 0)
    {
      this.cfg := cfg;
      transactionItems := 0;
      session := NoTables;
      committed := NoTables;
      remoteData := [];
      remoteCommits := 0;
    }

    /** `commit`; `ok` is whether the session's commit succeeds. */
    method Commit(ok: bool)
      requires Valid()
      modifies this
      ensures Valid() && State() == AfterCommit(old(State()), cfg, ok)
    {
      if cfg.dockerized {
        remoteCommits := remoteCommits + 1;
      }
      if ok {
        committed := session;
        transactionItems := 0;
      } else {
        session := committed;
      }
    }

    method ManageTransaction(ok: bool)
      requires Valid()
      modifies this
      ensures Valid() && State() == AfterManageTransaction(old(State()), cfg, ok)
    {
      transactionItems := transactionItems + 1;
      if transactionItems > cfg.transactionItemsMax {
        Commit(ok);
      }
    }

    method Insert(data: Record, table: Option<Table>, ok: bool)
      requires Valid() && (cfg.dockerized || table.Some?)
      modifies this
      ensures Valid() && State() == AfterInsert(old(State()), cfg, data, table, ok)
    {
      match table {
        case None =>
          remoteData := remoteData + [data];
        case Some(t) =>
          if t == ItemUrlsTable {
            InsertUrlKeepsIdsIncreasing(session, data);
          }
          session := ActuallyInsert(session, data, t);
      }
      ManageTransaction(ok);
    }

    method InsertMultiple(items: seq<Record>, table: Option<Table>, ok: bool)
      requires Valid() && (cfg.dockerized || table.Some?)
      modifies this
      ensures Valid() && State() == AfterInsertMultiple(old(State()), cfg, items, table, ok)
    {
      for k := 0 to |items|
        invariant Valid()
        invariant AfterInsertMultiple(old(State()), cfg, items, table, ok) == AfterInsertMultiple(State(), cfg, items[k..], table, ok)
      {
        assert items[k..][1..] == items[k + 1..];
        Insert(items[k], table, ok);
      }
    }

    method DeleteUrl(url: string)
      requires Valid()
      modifies this
      ensures Valid() && State() == AfterDeleteUrl(old(State()), url)
    {
      WithoutUrlMembers(session.urls, Some(url));
      WithoutUrlIncreasing(session.urls, Some(url));
      session := session.(urls := WithoutUrl(session.urls, Some(url)));
      transactionItems := transactionItems + 1;
    }

    /** `_remove_duplicate_item_urls`, through the engine's own autocommitting connection. */
    method RemoveDuplicateItemUrls()
      requires Valid()
      modifies this
      ensures Valid() && State() == AfterRemoveDuplicates(old(State()))
    {
      DropNewestSubsequence(committed.urls, committed.urls);
      DropNewestSubsequence(committed.urls, session.urls);
      var durable := DuplicatesRemoved(committed.urls);
      var seen := DropNewestDuplicates(committed.urls, session.urls);
      forall i | 0 <= i < |durable| ensures durable[i].id < committed.nextId {
        assert durable[i] in committed.urls;
      }
      forall i | 0 <= i < |seen| ensures seen[i].id < session.nextId {
        assert seen[i] in session.urls;
      }
      session := session.(urls := seen);
      committed := committed.(urls := durable);
    }

    method GetItemUrls() returns (urls: seq<Option<string>>)
      requires Valid()
      modifies this
      ensures Valid() && (State(), urls) == AfterGetItemUrls(old(State()))
    {
      RemoveDuplicateItemUrls();
      urls := UrlsOf(Reverse(session.urls));
    }
  }
}
