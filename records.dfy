/**
  internal/records: the read side of the ledger. `GET /balance` reports the
  caller's total and available points; `GET /history` pages through the
  caller's flows in history order (the last inserted first), with a keyset
  cursor (the id of the first row of the next page).
*/
module Records {
  import opened Wrappers
  import opened Numbers
  import opened Json
  import opened LedgerTypes
  import opened FlowStore
  import Transactions

  // ---------------------------------------------------------------------------
  // GET /balance
  // ---------------------------------------------------------------------------

  /**
    handleGetBalance for an authenticated caller: the balance row, or 0/0
    when the account has none; `fault` is a store error other than "no rows".
  */
  function HandleGetBalance(flows: seq<Flow>, caller: AccountId, fault: Option<string>): (r: Result<Balance, HttpError>)
    ensures fault.Some? ==> r == Failure(HttpError(InternalServerError, fault.value))
    ensures fault.None? ==> r == Success(Balance(Total(flows, caller), Available(flows, caller)))
    ensures !HasFlows(flows, caller) && fault.None? ==> r == Success(Balance(0, 0))
    ensures r.Success? ==> r.value.availablePoints <= r.value.totalPoints
  {
    if fault.Some? then Failure(HttpError(InternalServerError, fault.value))
    else
      match GetBalance(flows, caller)
      case None => NoFlowsNoBalance(flows, caller); Success(Balance(0, 0))
      case Some(b) => Success(b)
  }

  // ---------------------------------------------------------------------------
  // History items (internal/records/history.go)
  // ---------------------------------------------------------------------------

  /**
    The history renderer's description: only manual credits and alert
    redemptions are described, exactly as the real-time renderer does; every
    other type gets an empty description here.
  */
  function Describe(flowType: FlowType, metadata: Document): (d: string)
    ensures flowType in {ManualCredit, AlertRedemption} ==> d == Transactions.Describe(flowType, metadata)
    ensures flowType !in {ManualCredit, AlertRedemption} ==> d == ""
  {
    if flowType == ManualCredit then Transactions.ManualCreditDescription(DecodeManualCredit(metadata))
    else if flowType == AlertRedemption then Transactions.AlertRedemptionDescription(DecodeAlertRedemption(metadata))
    else ""
  }

  /** Cheers, subscriptions and gift subs are described in real-time events but not in the history. */
  lemma HistoryOmitsInflowDescriptions(flowType: FlowType, metadata: Document)
    requires flowType in {Cheer, Subscription, GiftSub}
    ensures Describe(flowType, metadata) == "" && Transactions.Describe(flowType, metadata) != ""
  {
  }

  /** buildHistoryItem: the history item for one row. */
  function BuildHistoryItem(f: Flow): (t: Transaction)
    ensures t.id == f.id && t.flowType == f.flowType && t.deltaPoints == f.deltaPoints
    ensures t.state == Pending <==> f.finalizedAt.None?
    ensures t.state == Accepted <==> f.finalizedAt.Some? && f.accepted
    ensures t.state == Rejected <==> f.finalizedAt.Some? && !f.accepted
    ensures t.timestamp == if f.finalizedAt.Some? then f.finalizedAt.value else f.createdAt
    ensures t.description == Describe(f.flowType, f.metadata)
  {
    Transaction(f.id, Transactions.DisplayTimestamp(f.createdAt, f.finalizedAt), f.flowType,
                Transactions.DisplayState(f.finalizedAt, f.accepted), f.deltaPoints, Describe(f.flowType, f.metadata))
  }

  /** A history item and a real-time event for the same row differ at most in the description. */
  lemma HistoryItemMatchesEvent(f: Flow)
    ensures var event := Transactions.BuildTransaction(f.id, f.flowType, f.metadata, f.deltaPoints,
                                                       f.createdAt, f.finalizedAt, f.accepted);
      BuildHistoryItem(f) == event.(description := Describe(f.flowType, f.metadata))
  {
  }

  function Items(rows: seq<Flow>): seq<Transaction>
  {
    seq(|rows|, k requires 0 <= k < |rows| => BuildHistoryItem(rows[k]))
  }

  lemma ItemsAppend(a: seq<Flow>, b: seq<Flow>)
    ensures Items(a + b) == Items(a) + Items(b)
  {
  }

  // ---------------------------------------------------------------------------
  // GET /history
  // ---------------------------------------------------------------------------

  const DefaultPageSize: nat := 50
  const MaxPageSize: nat := 100

  /**
    The page size: 50 unless `max` parses as an integer, which is then
    clamped to [1, 100].
  */
  function PageLimit(maxParam: string): (limit: nat)
    ensures 1 <= limit <= MaxPageSize
    ensures Atoi(maxParam).None? ==> limit == DefaultPageSize
    ensures Atoi(maxParam).Some? && 1 <= Atoi(maxParam).value <= MaxPageSize ==> limit == Atoi(maxParam).value
    ensures Atoi(maxParam).Some? && Atoi(maxParam).value < 1 ==> limit == 1
    ensures Atoi(maxParam).Some? && Atoi(maxParam).value > MaxPageSize ==> limit == MaxPageSize
  {
    if maxParam == "" then DefaultPageSize
    else
      match Atoi(maxParam)
      case None => DefaultPageSize
      case Some(v) => if v < 1 then 1 else if v > MaxPageSize then MaxPageSize else v
  }

  /** A history response: the items and, when more rows remain, the id of the next one. */
  datatype HistoryPage = HistoryPage(items: seq<Transaction>, nextCursor: Option<FlowId>)

  /** Turn up to `limit + 1` fetched rows into a page of at most `limit` items and a cursor. */
  function PageOf(rows: seq<Flow>, limit: nat): (p: HistoryPage)
    ensures |p.items| == if |rows| < limit then |rows| else limit
    ensures forall k {:trigger p.items[k]} :: 0 <= k < |p.items| ==> p.items[k] == BuildHistoryItem(rows[k])
    ensures p.nextCursor.Some? <==> |rows| > limit
    ensures p.nextCursor.Some? ==> p.nextCursor.value == rows[limit].id
  {
    HistoryPage(Items(Take(rows, limit)), if |rows| > limit then Some(rows[limit].id) else None)
  }

  /** One page of the caller's history, from `from` on, for a page size of `limit`. */
  function HistoryPageAt(flows: seq<Flow>, caller: AccountId, limit: nat, from: Option<FlowId>): HistoryPage
  {
    PageOf(GetTransactionHistory(flows, caller, from, limit + 1), limit)
  }

  /**
    handleGetHistory for an authenticated caller. `from` is the parsed
    cursor: `None` when the parameter is absent or is not a uuid. The query's
    error is never looked at by the source, so the model's query cannot fail.
  */
  function HandleGetHistory(flows: seq<Flow>, caller: AccountId, maxParam: string, from: Option<FlowId>): (p: HistoryPage)
    ensures |p.items| <= PageLimit(maxParam)
    ensures forall k {:trigger p.items[k]} :: 0 <= k < |p.items| ==> ItemOfCaller(flows, caller, p.items[k])
    ensures from.None? ==> p.items == Items(Take(AccountHistory(flows, caller), PageLimit(maxParam)))
    ensures from.None? ==> (p.nextCursor.Some? <==> |AccountHistory(flows, caller)| > PageLimit(maxParam))
  {
    var limit := PageLimit(maxParam);
    HistoryRowsInTable(flows, caller, from, limit + 1);
    PageRowsAreCallers(flows, caller, GetTransactionHistory(flows, caller, from, limit + 1), limit);
    if from.None? then
      TakeTake(AccountHistory(flows, caller), limit + 1, limit);
      HistoryPageAt(flows, caller, limit, from)
    else
      HistoryPageAt(flows, caller, limit, from)
  }

  /** `t` is the history item of one of the caller's rows. */
  predicate ItemOfCaller(flows: seq<Flow>, caller: AccountId, t: Transaction)
  {
    exists i :: 0 <= i < |flows| && flows[i].account == caller && t == BuildHistoryItem(flows[i])
  }

  lemma {:induction false} PageRowsAreCallers(flows: seq<Flow>, caller: AccountId, rows: seq<Flow>, limit: nat)
    requires forall k :: 0 <= k < |rows| ==> rows[k].account == caller && rows[k] in flows
    ensures forall k :: 0 <= k < |PageOf(rows, limit).items| ==> ItemOfCaller(flows, caller, PageOf(rows, limit).items[k])
  {
    var p := PageOf(rows, limit);
    forall k | 0 <= k < |p.items|
      ensures ItemOfCaller(flows, caller, p.items[k])
    {
      assert p.items[k] == BuildHistoryItem(rows[k]);
      assert rows[k] in flows;
      var i :| 0 <= i < |flows| && flows[i] == rows[k];
      assert flows[i].account == caller && p.items[k] == BuildHistoryItem(flows[i]);
    }
  }

  lemma TakeTake<T>(s: seq<T>, m: nat, n: nat)
    requires n <= m
    ensures Take(Take(s, m), n) == Take(s, n)
  {
  }

  /** With unique ids, the query from the k-th newest row's id returns the history from that row on. */
  lemma {:induction false} CursorStartsAtRow(flows: seq<Flow>, account: AccountId, k: nat, n: nat)
    requires UniqueIds(flows) && k < |AccountHistory(flows, account)|
    ensures GetTransactionHistory(flows, account, Some(AccountHistory(flows, account)[k].id), n)
         == Take(AccountHistory(flows, account)[k..], n)
  {
    var h := AccountHistory(flows, account);
    var i := HistoryPosition(flows, account, k);
    IndexOfUnique(flows, i);
    assert IndexOf(flows, h[k].id) == Some(i);
    assert AccountHistory(flows[..i + 1], account) == h[k..];
  }

  /** The page a correct paginator returns at the j-th newest row of `h`. */
  function ExpectedPage(h: seq<Flow>, limit: nat, j: nat): HistoryPage
    requires j < |h|
  {
    if j + limit < |h| then HistoryPage(Items(h[j..j + limit]), Some(h[j + limit].id))
    else HistoryPage(Items(h[j..]), None)
  }

  /** The page read at the k-th newest row: the next `limit` rows, and the row after them as the cursor. */
  lemma {:induction false} PageAtRow(flows: seq<Flow>, caller: AccountId, limit: nat, k: nat)
    requires UniqueIds(flows) && k < |AccountHistory(flows, caller)|
    ensures HistoryPageAt(flows, caller, limit, Some(AccountHistory(flows, caller)[k].id))
         == ExpectedPage(AccountHistory(flows, caller), limit, k)
  {
    CursorStartsAtRow(flows, caller, k, limit + 1);
    PageOfSuffix(AccountHistory(flows, caller), limit, k);
  }

  /** Fetching `limit + 1` rows from row k on and paging them gives the expected page at row k. */
  lemma PageOfSuffix(h: seq<Flow>, limit: nat, k: nat)
    requires k < |h|
    ensures PageOf(Take(h[k..], limit + 1), limit) == ExpectedPage(h, limit, k)
  {
    var rows := Take(h[k..], limit + 1);
    if k + limit < |h| {
      assert Take(rows, limit) == h[k..k + limit];
      assert rows[limit] == h[k + limit];
    } else {
      assert Take(rows, limit) == h[k..];
    }
  }

  /** The first page: the newest `limit` rows, and the row after them as the cursor. */
  lemma {:induction false} PageAtStart(flows: seq<Flow>, caller: AccountId, limit: nat)
    ensures var h := AccountHistory(flows, caller);
      h != [] ==> HistoryPageAt(flows, caller, limit, None) == ExpectedPage(h, limit, 0)
    ensures AccountHistory(flows, caller) == [] ==> HistoryPageAt(flows, caller, limit, None) == HistoryPage([], None)
  {
    var h := AccountHistory(flows, caller);
    var rows := Take(h, limit + 1);
    if |h| > limit {
      assert Take(rows, limit) == h[..limit];
      assert h[..limit] == h[0..0 + limit];
    } else {
      assert Take(rows, limit) == h;
      assert h == h[0..];
    }
  }

  /**
    A client that starts at `from` and follows `nextCursor` until it is
    absent, reading at most `fuel` further pages from `page`.
  */
  function Walk(page: Option<FlowId> -> HistoryPage, from: Option<FlowId>, fuel: nat): seq<Transaction>
    decreases fuel
  {
    var p := page(from);
    if fuel == 0 || p.nextCursor.None? then p.items
    else p.items + Walk(page, p.nextCursor, fuel - 1)
  }

  /** The pages `exp` gives for rows k, k + limit, k + 2 * limit, ... of a history of n rows, concatenated. */
  function Chain(exp: nat -> HistoryPage, n: nat, limit: nat, k: nat): seq<Transaction>
    requires 1 <= limit
    decreases n - k
  {
    exp(k).items + (if k + limit < n then Chain(exp, n, limit, k + limit) else [])
  }

  /**
    Against any paginator that answers the cursor of the j-th row of `h` with
    `exp(j)`, and whose cursors point `limit` rows further on, the walk from
    the k-th row yields the pages `exp` gives, in order.
  */
  lemma {:induction false} WalkFrom(page: Option<FlowId> -> HistoryPage, exp: nat -> HistoryPage, h: seq<Flow>,
                                    limit: nat, k: nat, fuel: nat)
    requires 1 <= limit && k < |h| && fuel >= |h| - k
    requires forall j {:trigger exp(j)} :: 0 <= j < |h| ==> page(Some(h[j].id)) == exp(j)
    requires forall j {:trigger exp(j)} :: 0 <= j < |h| ==> exp(j).nextCursor == if j + limit < |h| then Some(h[j + limit].id) else None
    ensures Walk(page, Some(h[k].id), fuel) == Chain(exp, |h|, limit, k)
    decreases fuel
  {
    if k + limit < |h| {
      WalkFrom(page, exp, h, limit, k + limit, fuel - 1);
    }
  }

  /** The expected pages, chained from row `k`, cover the history from that row without gap or overlap. */
  lemma {:induction false} ChainCoversHistory(exp: nat -> HistoryPage, h: seq<Flow>, limit: nat, k: nat)
    requires 1 <= limit && k < |h|
    requires forall j {:trigger exp(j)} :: 0 <= j < |h| ==> exp(j) == ExpectedPage(h, limit, j)
    ensures Chain(exp, |h|, limit, k) == Items(h[k..])
    decreases |h| - k
  {
    assert exp(k) == ExpectedPage(h, limit, k);
    if k + limit < |h| {
      var front, back := h[k..k + limit], h[k + limit..];
      ChainCoversHistory(exp, h, limit, k + limit);
      ItemsAppend(front, back);
      assert front + back == h[k..];
    } else {
      assert h[k..] == h[k..];
    }
  }

  /** `GET /history` as a function of the cursor, for one caller and one `max` parameter. */
  function Paginator(flows: seq<Flow>, caller: AccountId, maxParam: string): Option<FlowId> -> HistoryPage
  {
    from => HandleGetHistory(flows, caller, maxParam, from)
  }

  /** `ExpectedPage` for every row of `h`, and an empty last page past its end. */
  function ExpectedPages(h: seq<Flow>, limit: nat): nat -> HistoryPage
  {
    (j: nat) => if j < |h| then ExpectedPage(h, limit, j) else HistoryPage([], None)
  }

  /** The client of `GET /history`: start without a cursor, then follow each `nextCursor`. */
  function FollowPages(flows: seq<Flow>, caller: AccountId, maxParam: string, fuel: nat): seq<Transaction>
  {
    Walk(Paginator(flows, caller, maxParam), None, fuel)
  }

  /** At the j-th row of the caller's history, the handler answers with the expected page. */
  lemma PaginatorAt(flows: seq<Flow>, caller: AccountId, maxParam: string, h: seq<Flow>, limit: nat, j: nat)
    requires UniqueIds(flows) && h == AccountHistory(flows, caller) && limit == PageLimit(maxParam) && j < |h|
    ensures ExpectedPages(h, limit)(j) == ExpectedPage(h, limit, j)
    ensures Paginator(flows, caller, maxParam)(Some(h[j].id)) == ExpectedPages(h, limit)(j)
    ensures ExpectedPages(h, limit)(j).nextCursor == if j + limit < |h| then Some(h[j + limit].id) else None
  {
    var from := Some(h[j].id);
    assert Paginator(flows, caller, maxParam)(from) == HandleGetHistory(flows, caller, maxParam, from);
    assert HandleGetHistory(flows, caller, maxParam, from) == HistoryPageAt(flows, caller, limit, from);
    PageAtRow(flows, caller, limit, j);
  }

  /** At every row of the caller's history, the handler answers with the expected page. */
  lemma PaginatorAgrees(flows: seq<Flow>, caller: AccountId, maxParam: string,
                        page: Option<FlowId> -> HistoryPage, exp: nat -> HistoryPage, h: seq<Flow>, limit: nat)
    requires UniqueIds(flows) && h == AccountHistory(flows, caller) && limit == PageLimit(maxParam)
    requires page == Paginator(flows, caller, maxParam) && exp == ExpectedPages(h, limit)
    ensures forall j {:trigger exp(j)} :: 0 <= j < |h| ==> exp(j) == ExpectedPage(h, limit, j)
    ensures forall j {:trigger exp(j)} :: 0 <= j < |h| ==> page(Some(h[j].id)) == exp(j)
    ensures forall j {:trigger exp(j)} :: 0 <= j < |h| ==>
      exp(j).nextCursor == if j + limit < |h| then Some(h[j + limit].id) else None
  {
    forall j | 0 <= j < |h|
      ensures exp(j) == ExpectedPage(h, limit, j)
      ensures page(Some(h[j].id)) == exp(j)
      ensures exp(j).nextCursor == if j + limit < |h| then Some(h[j + limit].id) else None
    {
      PaginatorAt(flows, caller, maxParam, h, limit, j);
    }
  }

  /** Without a cursor, the handler answers as it does for the cursor of the newest row. */
  lemma StartIsNewestRow(flows: seq<Flow>, caller: AccountId, maxParam: string)
    requires UniqueIds(flows) && AccountHistory(flows, caller) != []
    ensures var h := AccountHistory(flows, caller);
      Paginator(flows, caller, maxParam)(None) == Paginator(flows, caller, maxParam)(Some(h[0].id))
  {
    var h := AccountHistory(flows, caller);
    PageAtStart(flows, caller, PageLimit(maxParam));
    PaginatorAt(flows, caller, maxParam, h, PageLimit(maxParam), 0);
  }

  /** Two cursors the paginator answers alike start the same walk. */
  lemma WalkSameStart(page: Option<FlowId> -> HistoryPage, a: Option<FlowId>, b: Option<FlowId>, fuel: nat)
    requires page(a) == page(b)
    ensures Walk(page, a, fuel) == Walk(page, b, fuel)
  {
  }

  /** Following every cursor from the newest row of a non-empty history lists that history once. */
  lemma FollowPagesNonEmpty(flows: seq<Flow>, caller: AccountId, maxParam: string)
    requires UniqueIds(flows) && AccountHistory(flows, caller) != []
    ensures var h := AccountHistory(flows, caller);
      Walk(Paginator(flows, caller, maxParam), Some(h[0].id), |flows|) == Items(h)
  {
    var h := AccountHistory(flows, caller);
    var limit := PageLimit(maxParam);
    var page := Paginator(flows, caller, maxParam);
    var exp := ExpectedPages(h, limit);
    PaginatorAgrees(flows, caller, maxParam, page, exp, h, limit);
    WalkFrom(page, exp, h, limit, 0, |flows|);
    ChainCoversHistory(exp, h, limit, 0);
    assert h[0..] == h;
  }

  /**
    Paging from the newest row and following every cursor visits each of
    the caller's rows exactly once, in history order.
  */
  lemma {:induction false} FollowPagesVisitsHistoryOnce(flows: seq<Flow>, caller: AccountId, maxParam: string)
    requires UniqueIds(flows)
    ensures FollowPages(flows, caller, maxParam, |flows|) == Items(AccountHistory(flows, caller))
  {
    var h := AccountHistory(flows, caller);
    var page := Paginator(flows, caller, maxParam);
    if h != [] {
      StartIsNewestRow(flows, caller, maxParam);
      WalkSameStart(page, None, Some(h[0].id), |flows|);
      FollowPagesNonEmpty(flows, caller, maxParam);
    } else {
      PageAtStart(flows, caller, PageLimit(maxParam));
    }
  }
}
