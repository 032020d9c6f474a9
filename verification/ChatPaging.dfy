/**
  Reading chat history newest first. A request inspects a bounded number of rows and returns those that
  nobody has reported; newer messages may arrive between requests.
*/
module ChatPaging {
  import opened Prelude

  const MAX_BATCH: nat := 100
  const VISIBLE_PAGE_SCAN_SLACK: nat := 1000
  const HISTORY_BASE: nat := 10
  const HISTORY_EPOCH: nat := 8
  const REPORTED_RAW_SCAN_CAP: nat := 50

  type Id = string
  datatype Message = Message(id: Id, reported: bool, text: string)

  /** The rows of one scope in query order; their ids are distinct. */
  predicate DistinctIds(rows: seq<Message>) {
    forall i, j :: 0 <= i < j < |rows| ==> rows[i].id != rows[j].id
  }

  function Visible(rows: seq<Message>): (r: seq<Message>) {
    if rows == [] then []
    else
      var last := rows[|rows| - 1];
      Visible(rows[..|rows| - 1]) + if last.reported then [] else [last]
  }

  lemma {:induction false} VisibleConcat(a: seq<Message>, b: seq<Message>)
    ensures Visible(a + b) == Visible(a) + Visible(b)
  {
    if b == [] {
      assert a + b == a;
    } else {
      VisibleConcat(a, b[..|b| - 1]);
      assert (a + b)[..|a + b| - 1] == a + b[..|b| - 1];
    }
  }

  function Min(a: int, b: int): (m: int) {
    if a <= b then a else b
  }

  function Max(a: int, b: int): (m: int) {
    if a >= b then a else b
  }

  // ----- one keyset page -----

  datatype PageError = BadLimit | BadCursor
  datatype Page = Page(messages: seq<Message>, nextCursor: Option<Id>, hasMore: bool) | Refused(error: PageError)

  /** The index of the row with this id, or the number of rows if there is none. */
  function Position(rows: seq<Message>, id: Id): (k: nat)
    ensures k <= |rows|
  {
    if rows == [] || rows[0].id == id then 0 else 1 + Position(rows[1..], id)
  }

  predicate Knows(rows: seq<Message>, cursor: Option<Id>) {
    cursor.None? || Position(rows, cursor.value) < |rows|
  }

  /** Where the rows after the cursor begin. */
  function After(rows: seq<Message>, cursor: Option<Id>): (k: nat)
    requires Knows(rows, cursor)
    ensures k <= |rows|
  {
    if cursor.None? then 0 else Position(rows, cursor.value) + 1
  }

  lemma {:induction false} PositionOfRow(rows: seq<Message>, k: nat)
    requires DistinctIds(rows) && k < |rows|
    ensures Position(rows, rows[k].id) == k
  {
    if k > 0 {
      PositionOfRow(rows[1..], k - 1);
    }
  }

  function ScanBudget(limit: int): (n: int) {
    Min(1000, Max(100, 4 * limit))
  }

  /** For every limit that a request may have: four pages' worth, and at least a hundred rows. */
  lemma ScanBudgetReads(limit: int)
    requires 1 <= limit <= 100
    ensures ScanBudget(limit) == if limit <= 25 then 100 else 4 * limit
  {
  }

  /** Appends visible rows of one batch until the page is full; `scanned` rows were inspected. */
  method CollectBatch(documents: seq<Message>, messages: seq<Message>, limit: nat)
    returns (collected: seq<Message>, scanned: nat)
    requires |messages| < limit
    ensures scanned <= |documents| && collected == messages + Visible(documents[..scanned])
    ensures |collected| <= limit
    ensures |collected| < limit ==> scanned == |documents|
    ensures |collected| == limit ==> scanned > 0
  {
    collected, scanned := messages, 0;
    while scanned < |documents| && |collected| < limit
      invariant scanned <= |documents| && collected == messages + Visible(documents[..scanned])
      invariant |collected| <= limit
      invariant |collected| == limit ==> scanned > 0
    {
      assert documents[..scanned + 1][..scanned] == documents[..scanned];
      if !documents[scanned].reported {
        collected := collected + [documents[scanned]];
      }
      scanned := scanned + 1;
    }
  }

  /** What a page promises about the rows between its cursor and the next one. */
  ghost predicate GoodPage(rows: seq<Message>, limit: int, start: nat, end: nat, messages: seq<Message>,
                           hasMore: bool)
  {
    && start <= end <= |rows|
    && messages == Visible(rows[start..end])
    && |messages| <= limit && end - start <= ScanBudget(limit)
    && (!hasMore ==> end == |rows|)
    && (hasMore ==> start < end && (|messages| == limit || end - start == ScanBudget(limit)))
  }

  /** Scans batches after row `start` until the page is full, the rows end, or the budget is spent. */
  method ScanPage(rows: seq<Message>, limit: int, start: nat)
    returns (messages: seq<Message>, scanned: nat, hasMore: bool)
    requires start <= |rows| && 1 <= limit
    ensures GoodPage(rows, limit, start, start + scanned, messages, hasMore)
  {
    hide Visible;
    var budget := ScanBudget(limit);
    scanned, messages, hasMore := 0, [], false;
    NothingScanned(rows, start);
    while scanned < budget && |messages| < limit
      invariant 0 <= scanned <= budget && start + scanned <= |rows|
      invariant messages == Visible(rows[start..start + scanned]) && |messages| <= limit
      invariant |messages| == limit ==> hasMore
      invariant hasMore ==> scanned > 0
      decreases budget - scanned
    {
      var batchLimit := Min(MAX_BATCH, budget - scanned);
      var documents := Batch(rows, start + scanned, batchLimit);
      if |documents| == 0 {
        hasMore := false;
        break;
      }
      var read;
      messages, read := CollectBatch(documents, messages, limit);
      ExtendScan(rows, start, start + scanned, documents, read);
      scanned := scanned + read;
      if |messages| == limit {
        hasMore := true;
        break;
      }
      if |documents| < batchLimit {
        hasMore := false;
        break;
      }
      hasMore := true;
    }
    if scanned >= budget && |messages| < limit {
      hasMore := true;
    }
  }

  /**
    Reads one page: a contiguous run of rows after the cursor, at most `limit` messages after a bounded
    scan, claiming the end only at the end, and otherwise moving on. The next cursor is the last row inspected.
  */
  method ReconcilePage(rows: seq<Message>, limit: int, cursor: Option<Id>) returns (page: Page)
    requires DistinctIds(rows)
    ensures page.Refused? <==> limit < 1 || limit > 100 || !Knows(rows, cursor)
    ensures page.Page? ==>
              && Knows(rows, page.nextCursor)
              && var start := After(rows, cursor);
                 var end := if page.nextCursor.Some? then After(rows, page.nextCursor) else start;
                 GoodPage(rows, limit, start, end, page.messages, page.hasMore)
  {
    if limit < 1 || limit > 100 {
      return Refused(BadLimit);
    }
    if !Knows(rows, cursor) {
      return Refused(BadCursor);
    }
    var start := After(rows, cursor);
    var messages, scanned, hasMore := ScanPage(rows, limit, start);
    var nextCursor := cursor;
    if scanned > 0 {
      PositionOfRow(rows, start + scanned - 1);
      nextCursor := Some(rows[start + scanned - 1].id);
    }
    if nextCursor == cursor && |messages| == 0 {
      nextCursor := None;
    }
    return Page(messages, nextCursor, hasMore);
  }

  lemma NothingScanned(rows: seq<Message>, start: nat)
    requires start <= |rows|
    ensures Visible(rows[start..start]) == []
  {
  }

  function Batch(rows: seq<Message>, from: nat, count: nat): (documents: seq<Message>)
    requires from <= |rows|
  {
    rows[from..Min(from + count, |rows|)]
  }

  lemma ExtendScan(rows: seq<Message>, start: nat, here: nat, documents: seq<Message>, read: nat)
    requires start <= here <= |rows| && read <= |documents| <= |rows| - here
             && documents == rows[here..here + |documents|]
    ensures Visible(rows[start..here + read]) == Visible(rows[start..here]) + Visible(documents[..read])
  {
    assert rows[start..here + read] == rows[start..here] + documents[..read];
    VisibleConcat(rows[start..here], documents[..read]);
  }

  // ----- following the cursor -----

  /** The rows at the k-th request, when `arrivals(i)` come in before request i + 1. */
  function RowsAt(initial: seq<Message>, arrivals: nat -> seq<Message>, k: nat): (rows: seq<Message>) {
    if k == 0 then initial else arrivals(k - 1) + RowsAt(initial, arrivals, k - 1)
  }

  lemma RowsAtStart(initial: seq<Message>, arrivals: nat -> seq<Message>)
    ensures RowsAt(initial, arrivals, 0) == initial
  {
  }

  lemma RowsAtNext(initial: seq<Message>, arrivals: nat -> seq<Message>, k: nat)
    ensures RowsAt(initial, arrivals, k + 1) == arrivals(k) + RowsAt(initial, arrivals, k)
  {
  }

  /** A cursor keeps its place relative to older rows when newer rows arrive. */
  lemma CursorKeepsItsPlace(newer: seq<Message>, rows: seq<Message>, cursor: Option<Id>)
    requires DistinctIds(newer + rows) && DistinctIds(rows) && Knows(rows, cursor) && cursor.Some?
    ensures Knows(newer + rows, cursor) && After(newer + rows, cursor) == |newer| + After(rows, cursor)
  {
    RowAtPosition(rows, cursor.value);
    var k := Position(rows, cursor.value);
    assert (newer + rows)[|newer| + k] == rows[k];
    PositionOfRow(newer + rows, |newer| + k);
  }

  lemma {:induction false} RowAtPosition(rows: seq<Message>, id: Id)
    requires Position(rows, id) < |rows|
    ensures rows[Position(rows, id)].id == id
  {
    if rows[0].id != id {
      RowAtPosition(rows[1..], id);
    }
  }

  /**
    Following the next cursor until there is no more ends, and returns each message that was visible at
    the first request exactly once and in order, whatever arrives in between.
  */
  method FollowCursors(initial: seq<Message>, arrivals: nat -> seq<Message>, limit: int) returns (all: seq<Message>)
    requires 1 <= limit <= 100
    requires forall k: nat :: DistinctIds(RowsAt(initial, arrivals, k))
    ensures all == Visible(initial)
  {
    hide Visible, Position, DistinctIds, RowsAt;
    RowsAtStart(initial, arrivals);
    var rows, cursor, k := initial, None, 0;
    all := [];
    ghost var newer: seq<Message>, read: nat := [], 0;
    NothingScanned(initial, 0);
    assert DistinctIds(RowsAt(initial, arrivals, 0));
    while true
      invariant rows == RowsAt(initial, arrivals, k) && DistinctIds(rows)
      invariant rows == newer + initial && read <= |initial|
      invariant Knows(rows, cursor) && After(rows, cursor) == |newer| + read
      invariant all == Visible(initial[..read])
      decreases |initial| - read
    {
      var page := ReconcilePage(rows, limit, cursor);
      ghost var end := if page.nextCursor.Some? then After(rows, page.nextCursor) else |newer| + read;
      ExtendRead(newer, initial, read, end);
      all := all + page.messages;
      read := end - |newer|;
      if !page.hasMore {
        assert initial[..read] == initial;
        return;
      }
      cursor := page.nextCursor;
      RowsAtNext(initial, arrivals, k);
      assert DistinctIds(RowsAt(initial, arrivals, k + 1));
      CursorKeepsItsPlace(arrivals(k), rows, cursor);
      newer := arrivals(k) + newer;
      rows := arrivals(k) + rows;
      k := k + 1;
    }
  }

  lemma ExtendRead(newer: seq<Message>, initial: seq<Message>, read: nat, end: nat)
    requires read <= |initial| && |newer| + read <= end <= |newer + initial|
    ensures Visible(initial[..end - |newer|]) ==
                Visible(initial[..read]) + Visible((newer + initial)[|newer| + read..end])
  {
    assert initial[..end - |newer|] == initial[..read] + (newer + initial)[|newer| + read..end];
    VisibleConcat(initial[..read], (newer + initial)[|newer| + read..end]);
  }

  // ----- offset pages -----

  function Prefix(rows: seq<Message>, n: int): (r: seq<Message>) {
    if n <= 0 then [] else rows[..Min(n, |rows|)]
  }

  /** `limit` rows after skipping `offset`. */
  function Slice(rows: seq<Message>, offset: int, limit: int): (r: seq<Message>) {
    Prefix(rows[Min(Max(offset, 0), |rows|)..], limit)
  }

  function PageBudget(limit: int, offset: int): (n: int) {
    Max(offset, 0) + Max(limit, 0) + VISIBLE_PAGE_SCAN_SLACK
  }

  lemma VisiblePrefix(rows: seq<Message>, a: nat, b: nat)
    requires a <= b <= |rows|
    ensures |Visible(rows[..a])| <= |Visible(rows[..b])|
    ensures Visible(rows[..b])[..|Visible(rows[..a])|] == Visible(rows[..a])
  {
    assert rows[..b] == rows[..a] + rows[a..b];
    VisibleConcat(rows[..a], rows[a..b]);
  }

  /** Skips `offset` visible rows and collects `limit` more, within a scan budget. */
  method GetMessages(rows: seq<Message>, limit: int, offset: int) returns (messages: seq<Message>)
    ensures messages == Slice(Visible(Prefix(rows, PageBudget(limit, offset))), offset, limit)
  {
    hide Visible;
    var needed := Max(offset, 0) + Max(limit, 0);
    var budget := PageBudget(limit, offset);
    var scanned, skipped := 0, 0;
    messages := [];
    NothingScanned(rows, 0);
    while scanned < budget && |messages| < limit
      invariant 0 <= scanned <= Min(budget, |rows|)
      invariant Collected(rows, scanned, offset, limit, skipped, messages)
      decreases budget - scanned
    {
      var batchLimit := Min(MAX_BATCH, budget - scanned);
      if scanned == 0 {
        batchLimit := Min(batchLimit, Max(1, needed));
      }
      var documents := Batch(rows, scanned, batchLimit);
      if |documents| == 0 {
        break;
      }
      ghost var base := scanned;
      var i := 0;
      while i < |documents| && |messages| < limit
        invariant 0 <= i <= |documents| && scanned == base + i
        invariant Collected(rows, scanned, offset, limit, skipped, messages)
      {
        CollectOne(rows, scanned, offset, limit, skipped, messages);
        if !documents[i].reported {
          if skipped < offset {
            skipped := skipped + 1;
          } else {
            messages := messages + [documents[i]];
          }
        }
        scanned, i := scanned + 1, i + 1;
      }
      if |documents| < batchLimit {
        break;
      }
    }
    CollectedIsThePage(rows, scanned, offset, limit, skipped, messages);
  }

  /** After `scanned` rows: the first visible ones are skipped, the next ones collected. */
  ghost predicate Collected(rows: seq<Message>, scanned: nat, offset: int, limit: int, skipped: nat,
                            messages: seq<Message>)
  {
    && scanned <= |rows|
    && var seen := Visible(rows[..scanned]);
       && skipped == Min(Max(offset, 0), |seen|)
       && messages == seen[skipped..]
       && |messages| <= Max(limit, 0)
  }

  lemma CollectOne(rows: seq<Message>, scanned: nat, offset: int, limit: int, skipped: nat, messages: seq<Message>)
    requires Collected(rows, scanned, offset, limit, skipped, messages) && scanned < |rows| && |messages| < limit
    ensures var m := rows[scanned];
            if m.reported then Collected(rows, scanned + 1, offset, limit, skipped, messages)
            else if skipped < offset then Collected(rows, scanned + 1, offset, limit, skipped + 1, messages)
            else Collected(rows, scanned + 1, offset, limit, skipped, messages + [m])
  {
    assert rows[..scanned + 1][..scanned] == rows[..scanned];
  }

  lemma CollectedIsThePage(rows: seq<Message>, scanned: nat, offset: int, limit: int, skipped: nat,
                           messages: seq<Message>)
    requires Collected(rows, scanned, offset, limit, skipped, messages)
    requires scanned <= PageBudget(limit, offset)
    requires |messages| >= limit || scanned == Min(PageBudget(limit, offset), |rows|)
    ensures messages == Slice(Visible(Prefix(rows, PageBudget(limit, offset))), offset, limit)
  {
    hide Visible;
    var whole := Prefix(rows, PageBudget(limit, offset));
    VisiblePrefix(rows, scanned, |whole|);
    assert whole == rows[..|whole|];
    var seen, all := Visible(rows[..scanned]), Visible(whole);
    assert all[..|seen|] == seen;
    if |messages| >= limit && limit > 0 {
      assert all[skipped..|seen|] == messages;
    } else if limit <= 0 {
      assert messages == [];
    } else {
      assert whole == rows[..scanned];
    }
  }

  function Reported(rows: seq<Message>): (n: nat)
    ensures n + |Visible(rows)| == |rows|
  {
    if rows == [] then 0 else Reported(rows[..|rows| - 1]) + if rows[|rows| - 1].reported then 1 else 0
  }

  lemma {:induction false} ReportedPrefix(rows: seq<Message>, n: nat)
    requires n <= |rows|
    ensures Reported(rows[..n]) <= Reported(rows)
    decreases |rows|
  {
    if n < |rows| {
      var init := rows[..|rows| - 1];
      assert rows[..n] == init[..n];
      ReportedPrefix(init, n);
    } else {
      assert rows[..n] == rows;
    }
  }

  /**
    When an offset page is the true one: nothing is asked for, the scan saw enough visible rows for the
    whole page, it saw all there are, or the page begins past the last of them.
  */
  lemma OffsetPageIsTrueIff(rows: seq<Message>, limit: int, offset: int)
    ensures var seen, all := Visible(Prefix(rows, PageBudget(limit, offset))), Visible(rows);
            Slice(seen, offset, limit) == Slice(all, offset, limit) <==>
              limit <= 0 || |seen| >= Max(offset, 0) + limit || |seen| == |all| || |all| <= Max(offset, 0)
  {
    hide Visible;
    SeenIsPrefix(rows, PageBudget(limit, offset));
    SliceOfPrefix(Visible(Prefix(rows, PageBudget(limit, offset))), Visible(rows), offset, limit);
  }

  lemma SeenIsPrefix(rows: seq<Message>, budget: int)
    ensures Visible(Prefix(rows, budget)) <= Visible(rows)
  {
    var whole := Prefix(rows, budget);
    assert whole == rows[..|whole|] && rows[..|rows|] == rows;
    VisiblePrefix(rows, |whole|, |rows|);
  }

  lemma SliceOfPrefix(seen: seq<Message>, all: seq<Message>, offset: int, limit: int)
    requires seen <= all
    ensures Slice(seen, offset, limit) == Slice(all, offset, limit) <==>
              limit <= 0 || |seen| >= Max(offset, 0) + limit || |seen| == |all| || |all| <= Max(offset, 0)
  {
    var skip := Max(offset, 0);
    if limit > 0 && |seen| < skip + limit && |seen| < |all| && skip < |all| {
      assert |Slice(seen, offset, limit)| == Max(|seen| - skip, 0);
      assert |Slice(all, offset, limit)| == Min(|all| - skip, limit);
    } else if |seen| == |all| {
      assert seen == all;
    }
  }

  /** In particular it is, if the scan meets no more reported rows than its slack. */
  lemma FewReportedRowsAreCrossed(rows: seq<Message>, limit: int, offset: int)
    requires Reported(Prefix(rows, PageBudget(limit, offset))) <= VISIBLE_PAGE_SCAN_SLACK
    ensures Slice(Visible(Prefix(rows, PageBudget(limit, offset))), offset, limit) ==
                Slice(Visible(rows), offset, limit)
  {
    hide Visible;
    var whole := Prefix(rows, PageBudget(limit, offset));
    OffsetPageIsTrueIff(rows, limit, offset);
    if |whole| == |rows| {
      assert whole == rows;
    }
  }

  /** Otherwise it may be empty: enough reported rows in front hide every visible one from the scan. */
  lemma OffsetPageCanBeEmpty(hidden: seq<Message>, chat: seq<Message>, limit: int)
    requires limit > 0 && |hidden| >= PageBudget(limit, 0) && (forall m :: m in hidden ==> m.reported)
    requires chat != [] && (forall m :: m in chat ==> !m.reported)
    ensures var rows := hidden + chat;
            Slice(Visible(Prefix(rows, PageBudget(limit, 0))), 0, limit) == [] && Slice(Visible(rows), 0, limit) != []
  {
    hide Visible;
    var rows := hidden + chat;
    VisibleConcat(hidden, chat);
    AllHidden(hidden);
    AllShown(chat);
    assert Prefix(rows, PageBudget(limit, 0)) == hidden[..PageBudget(limit, 0)];
    AllHidden(hidden[..PageBudget(limit, 0)]);
  }

  // ----- the cache-aligned window -----

  function HistoryLimit(total: nat): (n: nat)
    ensures n <= total
  {
    if total <= HISTORY_BASE then total else HISTORY_BASE + (total - HISTORY_BASE) % HISTORY_EPOCH
  }

  /** The history sent with a request, oldest first. */
  function History(chat: seq<Message>): (h: seq<Message>) {
    chat[|chat| - HistoryLimit(|chat|)..]
  }

  /**
    A new message extends the window at its end, so the earlier request stays a prefix of the later one,
    except once every eight messages, when the window starts eight later and is back to ten.
  */
  lemma HistoryGrowsAppendOnly(chat: seq<Message>, m: Message)
    ensures |chat| >= 10 ==> 10 <= |History(chat)| <= 17
    ensures |chat| < 10 ==> History(chat) == chat
    ensures |History(chat)| < 17 ==> History(chat + [m]) == History(chat) + [m]
    ensures |History(chat)| == 17 ==> History(chat + [m]) == History(chat)[8..] + [m] && |History(chat + [m])| == 10
  {
    hide HistoryLimit;
    var n := |chat|;
    LimitSteps(n);
    var longer := chat + [m];
    assert forall k :: 0 <= k <= n ==> longer[k..] == chat[k..] + [m];
    if HistoryLimit(n) == 17 {
      assert chat[n - 17..][8..] == chat[n - 9..];
    }
  }

  lemma LimitSteps(n: nat)
    ensures n < 10 ==> HistoryLimit(n) == n
    ensures n >= 10 ==> 10 <= HistoryLimit(n) <= 17
    ensures HistoryLimit(n + 1) == if HistoryLimit(n) == 17 then 10 else HistoryLimit(n) + 1
  {
    if n >= 10 {
      var d := n - 10;
      assert d == 8 * (d / 8) + d % 8;
      assert (d + 1) % 8 == if d % 8 == 7 then 0 else d % 8 + 1;
    }
  }

  function RawLimit(rows: seq<Message>): (n: nat) {
    Min(|rows|, HistoryLimit(|Visible(rows)|) + Min(Reported(rows), REPORTED_RAW_SCAN_CAP))
  }

  /** The visible rows that reading the aligned window comes across. */
  function SeenByHistory(rows: seq<Message>): (seen: seq<Message>) {
    Visible(Prefix(rows, PageBudget(RawLimit(rows), 0)))
  }

  /**
    Reads the aligned window, newest first. It is the newest visible messages, of the number the policy
    asks for, exactly when the bounded scan comes across that many.
  */
  method GetCacheAligned(rows: seq<Message>) returns (messages: seq<Message>)
    ensures messages == Prefix(SeenByHistory(rows), HistoryLimit(|Visible(rows)|))
    ensures messages == Prefix(Visible(rows), HistoryLimit(|Visible(rows)|)) <==>
              |SeenByHistory(rows)| >= HistoryLimit(|Visible(rows)|)
  {
    hide Visible;
    var total, reported := |rows|, Reported(rows);
    var visibleLimit := HistoryLimit(Max(0, total - reported));
    if visibleLimit == 0 {
      return [];
    }
    var rawLimit := Min(total, visibleLimit + Min(reported, REPORTED_RAW_SCAN_CAP));
    var page := GetMessages(rows, rawLimit, 0);
    messages := Prefix(page, visibleLimit);
    ShorterPrefix(SeenByHistory(rows), rawLimit, visibleLimit);
    SeenIsPrefix(rows, PageBudget(rawLimit, 0));
    PrefixesDiffer(SeenByHistory(rows), Visible(rows), visibleLimit);
  }

  lemma ShorterPrefix(seen: seq<Message>, raw: nat, limit: nat)
    requires limit <= raw
    ensures Prefix(Slice(seen, 0, raw), limit) == Prefix(seen, limit)
  {
  }

  lemma PrefixesDiffer(seen: seq<Message>, all: seq<Message>, limit: nat)
    requires seen <= all && limit <= |all|
    ensures Prefix(seen, limit) == Prefix(all, limit) <==> |seen| >= limit
  {
  }

  /** A thousand reported rows never cost the window a message. */
  lemma FewReportedRowsKeepTheHistory(rows: seq<Message>)
    requires Reported(rows) <= VISIBLE_PAGE_SCAN_SLACK
    ensures |SeenByHistory(rows)| >= HistoryLimit(|Visible(rows)|)
  {
    hide Visible;
    var whole := Prefix(rows, PageBudget(RawLimit(rows), 0));
    assert whole == rows[..|whole|];
    ReportedPrefix(rows, |whole|);
  }

  /**
    More may cost all of them: behind enough reported rows the history comes back empty although the chat
    has messages to show. Twelve hundred reported rows before twenty visible ones are such a chat.
  */
  lemma HistoryCanBeEmpty(hidden: seq<Message>, chat: seq<Message>)
    requires |hidden| == 1200 && (forall m :: m in hidden ==> m.reported)
    requires |chat| == 20 && (forall m :: m in chat ==> !m.reported)
    ensures SeenByHistory(hidden + chat) == [] && HistoryLimit(|Visible(hidden + chat)|) == 12
  {
    hide Visible;
    var rows := hidden + chat;
    VisibleConcat(hidden, chat);
    AllHidden(hidden);
    AllShown(chat);
    assert PageBudget(RawLimit(rows), 0) == 1062;
    assert Prefix(rows, 1062) == hidden[..1062];
    AllHidden(hidden[..1062]);
  }

  lemma {:induction false} AllHidden(rows: seq<Message>)
    requires forall m :: m in rows ==> m.reported
    ensures Visible(rows) == []
  {
    if rows != [] {
      var init, last := rows[..|rows| - 1], rows[|rows| - 1];
      assert rows == init + [last] && last in rows;
      AllHidden(init);
    }
  }

  lemma {:induction false} AllShown(rows: seq<Message>)
    requires forall m :: m in rows ==> !m.reported
    ensures Visible(rows) == rows
  {
    if rows != [] {
      var init, last := rows[..|rows| - 1], rows[|rows| - 1];
      assert rows == init + [last] && last in rows;
      AllShown(init);
    }
  }
}
