/**
  The `ledger.flow` table and the queries the handlers run against it:
  inserting credits (already final) and pending debits, reading one flow,
  the conditional finalize update, the balance aggregate and the history
  query. The table is a sequence of rows in creation order.
*/
module FlowStore {
  import opened Wrappers
  import opened Json
  import opened LedgerTypes

  /** One row of the flow table. `accepted` is meaningful only once `finalizedAt` is set. */
  datatype Flow = Flow(
    id: FlowId,
    flowType: FlowType,
    metadata: Document,
    account: AccountId,
    deltaPoints: int,
    createdAt: Timestamp,
    finalizedAt: Option<Timestamp>,
    accepted: bool)
  {
    predicate IsPending()
    {
      finalizedAt.None?
    }
  }

  // ---------------------------------------------------------------------------
  // Balance derivation (the GetBalance aggregate)
  // ---------------------------------------------------------------------------

  /** A flow's share of `total`: its delta once accepted, and a pending credit's delta. */
  function TotalShare(f: Flow): int
  {
    if f.accepted then f.deltaPoints
    else if f.IsPending() && f.deltaPoints > 0 then f.deltaPoints
    else 0
  }

  /** A flow's share of `available`: its delta once accepted, and a pending debit's delta. */
  function AvailableShare(f: Flow): int
  {
    if f.accepted then f.deltaPoints
    else if f.IsPending() && f.deltaPoints < 0 then f.deltaPoints
    else 0
  }

  /** The magnitude a pending, unaccepted flow holds between the two balances. */
  function HeldShare(f: Flow): nat
  {
    if !f.accepted && f.IsPending() then
      if f.deltaPoints < 0 then -f.deltaPoints else f.deltaPoints
    else 0
  }

  function Total(flows: seq<Flow>, account: AccountId): int
    decreases |flows|
  {
    if flows == [] then 0
    else
      var f := flows[|flows| - 1];
      Total(flows[..|flows| - 1], account) + (if f.account == account then TotalShare(f) else 0)
  }

  function Available(flows: seq<Flow>, account: AccountId): int
    decreases |flows|
  {
    if flows == [] then 0
    else
      var f := flows[|flows| - 1];
      Available(flows[..|flows| - 1], account) + (if f.account == account then AvailableShare(f) else 0)
  }

  /** Points held by the account's pending flows: pending debits plus pending credits. */
  function Held(flows: seq<Flow>, account: AccountId): nat
    decreases |flows|
  {
    if flows == [] then 0
    else
      var f := flows[|flows| - 1];
      Held(flows[..|flows| - 1], account) + (if f.account == account then HeldShare(f) else 0)
  }

  /** total - available is exactly what the account's pending flows hold. */
  lemma {:induction false} TotalMinusAvailable(flows: seq<Flow>, account: AccountId)
    ensures Total(flows, account) - Available(flows, account) == Held(flows, account)
    decreases |flows|
  {
    if flows != [] {
      TotalMinusAvailable(flows[..|flows| - 1], account);
    }
  }

  /** The spendable balance never exceeds the total balance. */
  lemma AvailableAtMostTotal(flows: seq<Flow>, account: AccountId)
    ensures Available(flows, account) <= Total(flows, account)
  {
    TotalMinusAvailable(flows, account);
  }

  predicate HasFlows(flows: seq<Flow>, account: AccountId)
  {
    exists i :: 0 <= i < |flows| && flows[i].account == account
  }

  /** The balance query: no row at all when the account has no flows. */
  function GetBalance(flows: seq<Flow>, account: AccountId): (r: Option<Balance>)
    ensures r.None? <==> !HasFlows(flows, account)
    ensures r.Some? ==> r.value.availablePoints <= r.value.totalPoints
  {
    AvailableAtMostTotal(flows, account);
    if HasFlows(flows, account) then Some(Balance(Total(flows, account), Available(flows, account))) else None
  }

  lemma {:induction false} NoFlowsNoBalance(flows: seq<Flow>, account: AccountId)
    requires !HasFlows(flows, account)
    ensures Total(flows, account) == 0 && Available(flows, account) == 0
    decreases |flows|
  {
    if flows != [] {
      var init := flows[..|flows| - 1];
      assert !HasFlows(init, account) by {
        forall i | 0 <= i < |init| ensures init[i].account != account {
          assert init[i] == flows[i];
        }
      }
      NoFlowsNoBalance(init, account);
    }
  }

  /** Appending a row moves the owner's balances by that row's shares and no one else's. */
  lemma AppendShares(flows: seq<Flow>, f: Flow, account: AccountId)
    ensures Total(flows + [f], account) == Total(flows, account) + (if f.account == account then TotalShare(f) else 0)
    ensures Available(flows + [f], account) == Available(flows, account) + (if f.account == account then AvailableShare(f) else 0)
    ensures Held(flows + [f], account) == Held(flows, account) + (if f.account == account then HeldShare(f) else 0)
  {
    assert (flows + [f])[..|flows|] == flows;
  }

  /** Replacing one row by another of the same owner moves the balances by the change in its shares. */
  lemma {:induction false} UpdateShares(flows: seq<Flow>, i: nat, g: Flow, account: AccountId)
    requires i < |flows| && g.account == flows[i].account
    ensures Total(flows[i := g], account) ==
      Total(flows, account) + (if g.account == account then TotalShare(g) - TotalShare(flows[i]) else 0)
    ensures Available(flows[i := g], account) ==
      Available(flows, account) + (if g.account == account then AvailableShare(g) - AvailableShare(flows[i]) else 0)
    decreases |flows|
  {
    var n := |flows|;
    var updated := flows[i := g];
    assert updated[..n - 1] == if i == n - 1 then flows[..n - 1] else flows[..n - 1][i := g];
    if i < n - 1 {
      UpdateShares(flows[..n - 1], i, g, account);
    }
  }

  // ---------------------------------------------------------------------------
  // Row lookup and the conditional finalize update
  // ---------------------------------------------------------------------------

  /** Row ids are unique: the table's primary key. */
  ghost predicate UniqueIds(flows: seq<Flow>)
  {
    forall i, j :: 0 <= i < j < |flows| ==> flows[i].id != flows[j].id
  }

  /** A pending row has never been accepted (the column defaults to false). */
  ghost predicate PendingNotAccepted(flows: seq<Flow>)
  {
    forall i :: 0 <= i < |flows| ==> flows[i].IsPending() ==> !flows[i].accepted
  }

  ghost predicate WellFormed(flows: seq<Flow>)
  {
    UniqueIds(flows) && PendingNotAccepted(flows)
  }

  /** The position of the row with the given id, if there is one. */
  function IndexOf(flows: seq<Flow>, id: FlowId): (r: Option<nat>)
    ensures r.Some? ==> r.value < |flows| && flows[r.value].id == id
    ensures r.Some? ==> forall j :: 0 <= j < r.value ==> flows[j].id != id
    ensures r.None? ==> forall j :: 0 <= j < |flows| ==> flows[j].id != id
    decreases |flows|
  {
    if flows == [] then None
    else if flows[0].id == id then Some(0)
    else
      match IndexOf(flows[1..], id)
      case None => None
      case Some(k) => Some(k + 1)
  }

  /** In a table with unique ids, a row's own id finds that row. */
  lemma IndexOfUnique(flows: seq<Flow>, i: nat)
    requires UniqueIds(flows) && i < |flows|
    ensures IndexOf(flows, flows[i].id) == Some(i)
  {
  }

  /** The GetFlow query. */
  function GetFlow(flows: seq<Flow>, id: FlowId): (r: Option<Flow>)
    ensures r.Some? <==> exists i :: 0 <= i < |flows| && flows[i].id == id
    ensures r.Some? ==> r.value in flows && r.value.id == id
  {
    match IndexOf(flows, id)
    case None => None
    case Some(i) => Some(flows[i])
  }

  /** What `UPDATE ... WHERE id = $1 AND finalized_at IS NULL` does to one row. */
  function FinalizeRow(f: Flow, id: FlowId, accepted: bool, now: Timestamp): Flow
  {
    if f.id == id && f.IsPending() then f.(finalizedAt := Some(now), accepted := accepted) else f
  }

  /** The FinalizeFlow update applied to the whole table. */
  function Finalized(flows: seq<Flow>, id: FlowId, accepted: bool, now: Timestamp): (r: seq<Flow>)
    ensures |r| == |flows|
  {
    seq(|flows|, i requires 0 <= i < |flows| => FinalizeRow(flows[i], id, accepted, now))
  }

  /** Some row with this id is still pending: the update will change one row. */
  predicate CanFinalize(flows: seq<Flow>, id: FlowId)
  {
    exists i :: 0 <= i < |flows| && flows[i].id == id && flows[i].IsPending()
  }

  /** With unique ids, finalizing changes exactly the one pending row with that id. */
  lemma FinalizedIsUpdate(flows: seq<Flow>, i: nat, accepted: bool, now: Timestamp)
    requires UniqueIds(flows) && i < |flows|
    ensures Finalized(flows, flows[i].id, accepted, now) == flows[i := FinalizeRow(flows[i], flows[i].id, accepted, now)]
  {
  }

  /** Finalizing an id with no pending row changes nothing (0 rows affected). */
  lemma FinalizedNoPendingRow(flows: seq<Flow>, id: FlowId, accepted: bool, now: Timestamp)
    requires !CanFinalize(flows, id)
    ensures Finalized(flows, id, accepted, now) == flows
  {
  }

  /**
    First writer wins: a second finalization of the same flow, with the same
    or the opposite verdict and at any later time, leaves the table as the
    first one left it.
  */
  lemma {:induction false} FinalizeTwice(flows: seq<Flow>, id: FlowId, a1: bool, t1: Timestamp, a2: bool, t2: Timestamp)
    ensures Finalized(Finalized(flows, id, a1, t1), id, a2, t2) == Finalized(flows, id, a1, t1)
  {
    var once := Finalized(flows, id, a1, t1);
    forall k | 0 <= k < |flows|
      ensures Finalized(once, id, a2, t2)[k] == once[k]
    {
      assert once[k] == FinalizeRow(flows[k], id, a1, t1);
    }
  }

  /**
    Accepting a pending flow moves a pending debit out of `total` and keeps
    `available`; rejecting it gives a pending debit back to `available` and
    keeps `total`. For a pending credit the roles swap.
  */
  lemma FinalizeShares(flows: seq<Flow>, i: nat, accepted: bool, now: Timestamp, account: AccountId)
    requires WellFormed(flows) && i < |flows| && flows[i].IsPending() && flows[i].account == account
    ensures var after := Finalized(flows, flows[i].id, accepted, now);
      var d := flows[i].deltaPoints;
      && Total(after, account) == Total(flows, account) + (if accepted then (if d < 0 then d else 0) else (if d > 0 then -d else 0))
      && Available(after, account) == Available(flows, account) + (if accepted then (if d > 0 then d else 0) else (if d < 0 then -d else 0))
  {
    FinalizedIsUpdate(flows, i, accepted, now);
    UpdateShares(flows, i, FinalizeRow(flows[i], flows[i].id, accepted, now), account);
  }

  lemma FinalizePreservesWellFormed(flows: seq<Flow>, id: FlowId, accepted: bool, now: Timestamp)
    requires WellFormed(flows)
    ensures WellFormed(Finalized(flows, id, accepted, now))
  {
  }

  // ---------------------------------------------------------------------------
  // The history query
  // ---------------------------------------------------------------------------

  /**
    The account's rows, the last inserted first. This is `created_at DESC`
    when creation times increase along the table (see `Chronological`).
  */
  function AccountHistory(flows: seq<Flow>, account: AccountId): (r: seq<Flow>)
    ensures forall k :: 0 <= k < |r| ==> r[k].account == account
    ensures |r| <= |flows|
    decreases |flows|
  {
    if flows == [] then []
    else
      var f := flows[|flows| - 1];
      (if f.account == account then [f] else []) + AccountHistory(flows[..|flows| - 1], account)
  }

  /** Every row of the history is a row of the table. */
  lemma {:induction false} AccountHistoryRowsInTable(flows: seq<Flow>, account: AccountId)
    ensures forall k :: 0 <= k < |AccountHistory(flows, account)| ==> AccountHistory(flows, account)[k] in flows
    decreases |flows|
  {
    if flows != [] {
      var init := flows[..|flows| - 1];
      AccountHistoryRowsInTable(init, account);
      assert forall f :: f in init ==> f in flows;
    }
  }

  function Take<T>(s: seq<T>, n: nat): (r: seq<T>)
    ensures r <= s && |r| == if |s| < n then |s| else n
  {
    if |s| < n then s else s[..n]
  }

  /**
    GetTransactionHistory: at most `numRecords` of the account's rows in
    history order, starting at the row with id `startId` inclusive (every row
    of the account inserted no later than it; on a chronological table, every
    row created no later than it). A start id that names no row yields no
    rows.
  */
  function GetTransactionHistory(flows: seq<Flow>, account: AccountId, startId: Option<FlowId>, numRecords: nat): (r: seq<Flow>)
    ensures |r| <= numRecords
    ensures forall k :: 0 <= k < |r| ==> r[k].account == account
  {
    match startId
    case None => Take(AccountHistory(flows, account), numRecords)
    case Some(id) =>
      match IndexOf(flows, id)
      case None => []
      case Some(i) => Take(AccountHistory(flows[..i + 1], account), numRecords)
  }

  /** Every row the history query returns is a row of the table. */
  lemma HistoryRowsInTable(flows: seq<Flow>, account: AccountId, startId: Option<FlowId>, numRecords: nat)
    ensures forall k :: 0 <= k < |GetTransactionHistory(flows, account, startId, numRecords)| ==>
      GetTransactionHistory(flows, account, startId, numRecords)[k] in flows
  {
    match startId
    case None =>
      AccountHistoryRowsInTable(flows, account);
    case Some(id) =>
      match IndexOf(flows, id)
      case None =>
      case Some(i) =>
        AccountHistoryRowsInTable(flows[..i + 1], account);
        assert forall f :: f in flows[..i + 1] ==> f in flows;
  }

  /** Newer rows come first: the history of `p + q` lists q's rows before p's. */
  lemma {:induction false} AccountHistoryAppend(p: seq<Flow>, q: seq<Flow>, account: AccountId)
    ensures AccountHistory(p + q, account) == AccountHistory(q, account) + AccountHistory(p, account)
    decreases |q|
  {
    if q == [] {
      assert p + q == p;
    } else {
      var n := |q|;
      assert (p + q)[..|p + q| - 1] == p + q[..n - 1];
      assert (p + q)[|p + q| - 1] == q[n - 1];
      AccountHistoryAppend(p, q[..n - 1], account);
    }
  }

  /**
    The k-th row of the account's history sits at some position i of the table,
    and the rows of the account up to and including position i are exactly
    the history from k on.
  */
  lemma {:induction false} HistoryPosition(flows: seq<Flow>, account: AccountId, k: nat) returns (i: nat)
    requires k < |AccountHistory(flows, account)|
    ensures i < |flows| && flows[i] == AccountHistory(flows, account)[k]
    ensures AccountHistory(flows[..i + 1], account) == AccountHistory(flows, account)[k..]
    decreases |flows|
  {
    var n := |flows|;
    var f := flows[n - 1];
    var init := flows[..n - 1];
    assert flows == init + [f];
    if f.account == account && k == 0 {
      i := n - 1;
      assert flows[..i + 1] == flows;
    } else {
      var k' := if f.account == account then k - 1 else k;
      i := HistoryPosition(init, account, k');
      assert flows[..i + 1] == init[..i + 1];
    }
  }

  /** Creation times strictly increase along the table: each row was created after every earlier one. */
  predicate Chronological(flows: seq<Flow>)
  {
    forall i, j :: 0 <= i < j < |flows| ==> flows[i].createdAt < flows[j].createdAt
  }

  /** A row is in an account's history exactly when it is one of the account's rows. */
  lemma {:induction false} AccountHistoryMembers(flows: seq<Flow>, account: AccountId, f: Flow)
    ensures f in AccountHistory(flows, account) <==> f in flows && f.account == account
    decreases |flows|
  {
    if flows != [] {
      var init := flows[..|flows| - 1];
      AccountHistoryMembers(init, account, f);
      assert flows == init + [flows[|flows| - 1]];
    }
  }

  /** In a chronological table the history is ordered by `created_at`, newest first, without ties. */
  lemma {:induction false} ChronologicalHistoryNewestFirst(flows: seq<Flow>, account: AccountId)
    requires Chronological(flows)
    ensures var h := AccountHistory(flows, account);
      forall a, b :: 0 <= a < b < |h| ==> h[a].createdAt > h[b].createdAt
    decreases |flows|
  {
    if flows != [] {
      var n := |flows|;
      var f := flows[n - 1];
      var init := flows[..n - 1];
      ChronologicalHistoryNewestFirst(init, account);
      var rest := AccountHistory(init, account);
      forall k | 0 <= k < |rest|
        ensures rest[k].createdAt < f.createdAt
      {
        AccountHistoryMembers(init, account, rest[k]);
        var i :| 0 <= i < |init| && init[i] == rest[k];
        assert flows[i] == rest[k];
      }
    }
  }

  /**
    In a chronological table, the history starting at the row at position i
    holds exactly the account's rows created no later than that row: the
    query's inclusive `created_at <=` cursor.
  */
  lemma ChronologicalCursor(flows: seq<Flow>, account: AccountId, i: nat, f: Flow)
    requires Chronological(flows) && i < |flows|
    ensures f in AccountHistory(flows[..i + 1], account) <==>
      f in flows && f.account == account && f.createdAt <= flows[i].createdAt
  {
    AccountHistoryMembers(flows[..i + 1], account, f);
    if f in flows && f.createdAt <= flows[i].createdAt {
      var j :| 0 <= j < |flows| && flows[j] == f;
      assert forall k :: i < k < |flows| ==> flows[i].createdAt < flows[k].createdAt;
      assert j <= i;
      assert flows[..i + 1][j] == f;
    }
    if f in flows[..i + 1] {
      var j :| 0 <= j <= i && flows[..i + 1][j] == f;
      assert flows[j] == f;
      if j < i {
        assert flows[j].createdAt < flows[i].createdAt;
      }
    }
  }

  /**
    The history query on a chronological table, as its SQL reads: from the
    cursor row on, the account's rows created no later than that row, newest
    first, and all of them when fewer than `numRecords` come back.
  */
  lemma ChronologicalHistoryQuery(flows: seq<Flow>, account: AccountId, id: FlowId, numRecords: nat)
    requires Chronological(flows) && IndexOf(flows, id).Some?
    ensures var r := GetTransactionHistory(flows, account, Some(id), numRecords);
      var cursor := flows[IndexOf(flows, id).value];
      && (forall k :: 0 <= k < |r| ==> r[k] in flows && r[k].account == account && r[k].createdAt <= cursor.createdAt)
      && (forall a, b :: 0 <= a < b < |r| ==> r[a].createdAt > r[b].createdAt)
      && (|r| < numRecords ==>
            forall f :: f in flows && f.account == account && f.createdAt <= cursor.createdAt ==> f in r)
  {
    var i := IndexOf(flows, id).value;
    var h := AccountHistory(flows[..i + 1], account);
    var r := GetTransactionHistory(flows, account, Some(id), numRecords);
    assert r == Take(h, numRecords);
    assert Chronological(flows[..i + 1]);
    ChronologicalHistoryNewestFirst(flows[..i + 1], account);
    forall k | 0 <= k < |r|
      ensures r[k] in flows && r[k].account == account && r[k].createdAt <= flows[i].createdAt
    {
      assert r[k] == h[k];
      ChronologicalCursor(flows, account, i, r[k]);
    }
    if |r| < numRecords {
      assert r == h;
      forall f | f in flows && f.account == account && f.createdAt <= flows[i].createdAt
        ensures f in r
      {
        ChronologicalCursor(flows, account, i, f);
      }
    }
  }

  // ---------------------------------------------------------------------------
  // The table, updated in place by the queries
  // ---------------------------------------------------------------------------

  class Store {
    var flows: seq<Flow>
    /** The next id to hand out; stands for `gen_random_uuid()`. */
    var nextId: FlowId

    ghost predicate Valid()
      reads this
    {
      WellFormed(flows) && forall i :: 0 <= i < |flows| ==> flows[i].id < nextId
    }

    constructor ()
      ensures Valid() && flows == []
    {
      flows := [];
      nextId := 0;
    }

    /** Inserts one row with a fresh id. */
    method Insert(flowType: FlowType, metadata: Document, account: AccountId, deltaPoints: int,
                  now: Timestamp, finalizedAt: Option<Timestamp>, accepted: bool) returns (id: FlowId)
      requires Valid()
      requires finalizedAt.None? ==> !accepted
      modifies this
      ensures Valid()
      ensures id == old(nextId) && nextId == old(nextId) + 1
      ensures forall i :: 0 <= i < |old(flows)| ==> old(flows)[i].id != id
      ensures flows == old(flows) + [Flow(id, flowType, metadata, account, deltaPoints, now, finalizedAt, accepted)]
      ensures Chronological(old(flows)) && (forall i :: 0 <= i < |old(flows)| ==> old(flows)[i].createdAt < now) ==>
        Chronological(flows)
    {
      id := nextId;
      flows := flows + [Flow(id, flowType, metadata, account, deltaPoints, now, finalizedAt, accepted)];
      nextId := nextId + 1;
    }

    /** Records a credit: inflows are created already finalized and accepted. */
    method RecordFinalizedInflow(flowType: FlowType, metadata: Document, account: AccountId,
                                 numPointsToCredit: int, now: Timestamp) returns (id: FlowId)
      requires Valid()
      modifies this
      ensures Valid()
      ensures id == old(nextId) && nextId == old(nextId) + 1
      ensures flows == old(flows) + [Flow(id, flowType, metadata, account, numPointsToCredit, now, Some(now), true)]
    {
      id := Insert(flowType, metadata, account, numPointsToCredit, now, Some(now), true);
    }

    /** RecordPendingAlertRedemptionOutflow: a pending debit of `numPointsToDebit`. */
    method RecordPendingAlertRedemptionOutflow(account: AccountId, alertType: string,
                                               alertMetadata: Option<map<string, Value>>,
                                               numPointsToDebit: int, now: Timestamp) returns (id: FlowId)
      requires Valid()
      modifies this
      ensures Valid()
      ensures id == old(nextId) && nextId == old(nextId) + 1
      ensures flows == old(flows) + [Flow(id, AlertRedemption, EncodeAlertRedemption(alertType, alertMetadata),
                                          account, -numPointsToDebit, now, None, false)]
    {
      id := Insert(AlertRedemption, EncodeAlertRedemption(alertType, alertMetadata), account,
                   -numPointsToDebit, now, None, false);
    }

    /**
      FinalizeFlow: set `finalized_at` and `accepted` on the row with this id
      if it is still pending, and report how many rows changed.
    */
    method FinalizeFlow(id: FlowId, accepted: bool, now: Timestamp) returns (rowsAffected: nat)
      requires Valid()
      modifies this
      ensures Valid() && nextId == old(nextId)
      ensures flows == Finalized(old(flows), id, accepted, now)
      ensures rowsAffected == if CanFinalize(old(flows), id) then 1 else 0
    {
      var i := 0;
      while i < |flows|
        invariant 0 <= i <= |flows|
        invariant forall k :: 0 <= k < i ==> flows[k].id != id
      {
        if flows[i].id == id {
          if !flows[i].IsPending() {
            FinalizedNoPendingRow(flows, id, accepted, now);
            return 0;
          }
          FinalizedIsUpdate(flows, i, accepted, now);
          flows := flows[i := flows[i].(finalizedAt := Some(now), accepted := accepted)];
          return 1;
        }
        i := i + 1;
      }
      FinalizedNoPendingRow(flows, id, accepted, now);
      return 0;
    }
  }
}
