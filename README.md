# Golden VCR ledger — a verified model

The ledger service keeps every viewer's Golden VCR points as a table of
*flows*. A flow is a signed change to one account's balance. Credits
(*inflows*) arrive from other services: cheers, subscriptions, gift subs, and
manual credits from the broadcaster. They are recorded already finalized and
accepted. Debits (*outflows*) are alert redemptions and follow a two-phase
protocol. `POST /outflow` reserves the points with a pending flow. Later a
`PATCH` accepts it or a `DELETE` rejects it, exactly once.

Balances are derived from the table:

- the **total** balance sums the accepted flows and the pending credits;
- the **available** balance sums the accepted flows and the pending debits;
- so a pending debit is already unspendable, and a pending credit is not yet
  spendable.

The history endpoint pages through an account's flows, the last inserted
first (which is newest first when creation times increase along the table),
with an inclusive keyset cursor. Flow changes are pushed to open Server-Sent-Events
streams. A stream is opened with a short-lived token issued by
`POST /notifications`.

The project also models the Go client library used by other services:

- `RequestAlertRedemption` followed by `Accept` or `Finalize` on the returned
  transaction context;
- the in-memory mock of that client, which tests elsewhere use.

Modules, one per source component:

| file | module | models |
|---|---|---|
| wrappers.dfy | Wrappers | `Option`, `Result` |
| numbers.dfy | Numbers | Go's `int32(...)` conversion, decimal formatting, `strconv.Atoi` |
| json.dfy | Json | the flow metadata documents and their decoding |
| ledger_types.dfy | LedgerTypes | transaction types and states, HTTP errors, shared request checks |
| transaction.dfy | Transactions | `internal/util/transaction.go` |
| flow_store.dfy | FlowStore | the flow table and the queries the handlers run |
| outflow.dfy | Outflow | `internal/outflow/server.go` |
| records.dfy | Records | `internal/records` (balance and history) |
| subscribers.dfy | Subscribers | `internal/notifications/subscribers.go` |
| notifications.dfy | Notifications | `internal/notifications/server.go` |
| cheer.dfy | Cheer | `internal/cheer/server.go` |
| subscription.dfy | Subscription | `internal/subscription/server.go` |
| admin.dfy | Admin | `internal/admin/server.go` |
| client.dfy | Client | `client.go` |
| mock.dfy | MockLedger | `mock/mock.go` |

Modelling conventions:

- Handlers are modelled for an already-authenticated caller.
- The JSON decoding of a request body is an input: the decoded value, or the
  decoder's error text.
- Store faults other than "no rows" are `Option<string>` inputs. The handler
  answers 500 with their text.
- Flow ids are drawn from a counter, not from UUIDs.
- Timestamps are integers passed in as `now`.
- Strings are sequences of characters, one per byte.
- Where Go converts a 64-bit `int` to `int32`, the model applies `ToInt32`.
  `ToInt32` keeps the low 32 bits as a signed value.

The SQL text of the queries is not part of this model. The flow table's
semantics are taken from the query tests under `gen/queries`:

- the balance aggregate;
- the finalize update, which touches only pending rows;
- the history query: an account's rows, the last inserted first, starting
  at the cursor row. `Chronological` names the tables on which this is the
  query's `created_at DESC` order and its `created_at <=` cursor.

## Model

| member | source | states |
|---|---|---|
| Numbers.ToInt32 | internal/outflow/server.go:85-94 | the result is a signed 32-bit value congruent to the input modulo 2^32, and equal to it when the input already fits |
| Numbers.AtoiOfDecimalString | internal/records/server.go:74-78 | `strconv.Atoi` reads back every 64-bit integer from its decimal form |
| Json.DecodeEncodedManualCredit | internal/util/transaction.go:35-41 | the manual-credit metadata the store writes decodes back to its note |
| Json.DecodeEncodedAlertRedemption | internal/util/transaction.go:43-49 | alert-redemption metadata decodes back to its alert type, whatever extra alert metadata it carries |
| Json.DecodeEncodedCheer | internal/util/transaction.go:51-58 | cheer metadata decodes back to its message |
| Json.DecodeEncodedSubscription | internal/util/transaction.go:114-119 | subscription metadata decodes back to the same record |
| Json.DecodeEncodedGiftSub | internal/util/transaction.go:121-124 | gift-sub metadata decodes back to the same record when the count fits a 64-bit int |
| Json.NotAnObjectNeverDecodes | internal/util/transaction.go:37-38 | metadata that is not a JSON object or null decodes into no struct |
| LedgerTypes.ParseFlowType | internal/util/transaction.go:27 | a raw type column always yields a well-formed type; an unknown name is kept as it is |
| LedgerTypes.TypeNameRoundTrip | types.go:12-16 | type names and types convert into each other in both directions |
| LedgerTypes.TruncateMessage | internal/cheer/server.go:61-65 | the stored message is a prefix of the given one, of length min(len, 128) |
| LedgerTypes.InflowResponse | internal/cheer/server.go:69-83 | an inflow handler answers with the store's new flow id exactly when the checks and the insert succeed; a failed check keeps its error and a store error becomes a 500 |
| Transactions.DisplayState | internal/util/transaction.go:14-23 | pending iff not finalized; accepted iff finalized and accepted; rejected iff finalized and not accepted |
| Transactions.TierSuffix | internal/util/transaction.go:73-75 | a tier suffix is shown exactly when the credit multiplier is above 1, and it reads " (at a tier with <n>x credit)" |
| Transactions.MessageSuffix | internal/util/transaction.go:76-78 | a message suffix is shown exactly when the message is non-empty, and it quotes the message: " with the message '<message>'" |
| Transactions.Describe | internal/util/transaction.go:34-100 | empty only for an unrecognized type; manual credits and alert redemptions start with their fixed prefix; cheers, subs and gift subs end with "!" |
| Transactions.BuildTransaction | internal/util/transaction.go:13-32 | keeps id, type and delta; the state follows finalization and acceptance; the timestamp is the finalization time once finalized, else the creation time |
| Transactions.DescribeRecordedManualCredit | internal/util/transaction.go:35-41 | a recorded manual credit reads "Manual credit: <note>" |
| Transactions.DescribeRecordedAlertRedemption | internal/util/transaction.go:43-49 | a recorded redemption reads "Redeemed alert of type '<type>'" |
| Transactions.DescribeRecordedCheer | internal/util/transaction.go:51-58 | a recorded cheer thanks the viewer, quoting the message only when there is one |
| Transactions.DescribeRecordedSubscription | internal/util/transaction.go:60-81 | a recorded sub reads as the gift, initial or renewal prefix, then the tier suffix, then the message suffix, then "!", for every multiplier and message |
| Transactions.DescribeRecordedGiftSub | internal/util/transaction.go:82-98 | a recorded gift sub reads "Thank you for gifting a sub" for one sub or "Thank you for gifting <n> subs" otherwise, then the tier suffix, then "!", for every multiplier |
| Transactions.DescribeUndecodable | internal/util/transaction.go:34-100 | undecodable metadata falls back to each type's generic description |
| FlowStore.TotalMinusAvailable | gen/queries/balance_test.go:38-88 | total minus available is exactly the sum held by pending debits and credits |
| FlowStore.AvailableAtMostTotal | gen/queries/balance_test.go:38-88 | the available balance never exceeds the total |
| FlowStore.GetBalance | gen/queries/balance_test.go:13-18 | no balance row exactly when the account has no flows; available ≤ total |
| FlowStore.NoFlowsNoBalance | internal/records/server.go:46-55 | an account without flows has total and available 0, as the handler's default assumes |
| FlowStore.AppendShares | gen/queries/balance_test.go:20-77 | a new flow changes only its own account's balances, by its own share |
| FlowStore.UpdateShares | gen/queries/balance_test.go:44-88 | rewriting one flow changes its account's balances by the difference of that flow's shares |
| FlowStore.IndexOf | gen/queries/finalize_test.go:14-53 | finds the first row with the id, or shows that none has it |
| FlowStore.IndexOfUnique | gen/queries/finalize_test.go:14-53 | with unique ids, a row's id finds that row |
| FlowStore.GetFlow | gen/queries/finalize_test.go:14-53 | a row is found exactly when one has the id, and it is a row of the table with that id |
| FlowStore.FinalizedIsUpdate | gen/queries/finalize_test.go:55-128 | finalizing a row's id rewrites that row alone |
| FlowStore.FinalizedNoPendingRow | gen/queries/finalize_test.go:121-127 | finalizing an id with no pending row changes nothing |
| FlowStore.FinalizeTwice | gen/queries/finalize_test.go:121-127 | a second finalize, accepting or rejecting, has no effect |
| FlowStore.FinalizeShares | gen/queries/balance_test.go:44-139 | accepting a pending flow moves it into both balances; rejecting one removes it from both |
| FlowStore.FinalizePreservesWellFormed | gen/queries/finalize_test.go:55-128 | finalizing keeps ids unique and keeps pending rows unaccepted |
| FlowStore.AccountHistory | gen/queries/history_test.go:13-76 | only the account's rows, no more rows than the table has |
| FlowStore.AccountHistoryRowsInTable | gen/queries/history_test.go:13-76 | every history row is a row of the table |
| FlowStore.AccountHistoryAppend | gen/queries/history_test.go:29-46 | rows inserted later come first in an account's history |
| FlowStore.AccountHistoryMembers | gen/queries/history_test.go:13-46 | a row is in an account's history exactly when it is one of the account's rows |
| FlowStore.ChronologicalHistoryNewestFirst | gen/queries/history_test.go:17-46 | when creation times increase along the table, the history is strictly ordered by `created_at`, newest first |
| FlowStore.ChronologicalCursor | gen/queries/history_test.go:55-76 | on such a table, the history from the cursor row holds exactly the account's rows created no later than that row |
| FlowStore.ChronologicalHistoryQuery | gen/queries/history_test.go:13-76 | on such a table, the cursor query returns only the account's rows created no later than the cursor row, newest first, and all of them when it returns fewer than asked |
| FlowStore.HistoryPosition | gen/queries/history_test.go:55-70 | the k-th history row sits at a table position whose prefix has exactly the history from k on |
| FlowStore.Take | internal/records/server.go:95-99 | a prefix of the rows, of length min(len, n) |
| FlowStore.GetTransactionHistory | gen/queries/history_test.go:13-76 | at most the requested number of rows, all of the account |
| FlowStore.HistoryRowsInTable | gen/queries/history_test.go:13-76 | every row of a history page is a row of the table |
| FlowStore.Store.Insert | gen/queries/alert_redemption_test.go:13-41 | appends exactly the new row under a fresh id and advances the id counter; a row created after every earlier one keeps the table chronological |
| FlowStore.Store.RecordFinalizedInflow | gen/queries/manual_credit_test.go:12-36 | appends a credit that is already finalized and accepted |
| FlowStore.Store.RecordPendingAlertRedemptionOutflow | gen/queries/alert_redemption_test.go:13-41 | appends a pending debit of minus the amount, with the alert metadata |
| FlowStore.Store.FinalizeFlow | gen/queries/finalize_test.go:55-128 | finalizes the pending row with the id; one row is affected exactly when there was one |
| Outflow.ValidateRequestAsWritten | internal/outflow/server.go:53-72 | the request checks as written, in order, each with its message: JSON content type, a decodable body, a positive amount, the alert-redemption type |
| Outflow.DebitAsWritten | internal/outflow/server.go:85-94 | as written: the balance check and the stored amount both use the `int32` conversion |
| Outflow.ValidateRequest | internal/outflow/server.go:53-72 | the checks, in order, each with its message (content type, decode error, non-positive amount, amount above the `int32` range, unsupported type) |
| Outflow.Debit | internal/outflow/server.go:85-88 | the debit goes ahead exactly when the available balance covers it, and leaves it non-negative |
| Outflow.AsWrittenDebitCredits | internal/outflow/server.go:63-94 | as written, 2^32 - 5 points pass with nothing available and record a +5 "debit" |
| Outflow.CorrectedRefusesWrappedAmount | internal/outflow/server.go:63-66 | the corrected checks refuse that request |
| Outflow.CorrectedAgreesInRange | internal/outflow/server.go:63-94 | within `int32` the corrected checks agree with the written ones |
| Outflow.AvailableForDebit | internal/outflow/server.go:75-84 | the balance row's available points, or 0 without a row, are the account's available balance |
| Outflow.ReserveThenFinalize | internal/outflow/server.go:90-100 | reserve then accept spends the amount from both balances; reserve then reject restores both |
| Outflow.HandleCreateOutflow | internal/outflow/server.go:42-113 | the handler with the corrected checks (the amount bounded to `int32`): success exactly when the checks pass, the store answers and the available balance covers the amount; then one pending debit is appended, total is unchanged, and available drops by the amount and stays non-negative; on failure the table is unchanged |
| Outflow.HandleCreateOutflowAsWritten | internal/outflow/server.go:42-113 | the handler as written: success exactly when the written checks pass, the store answers and the available balance covers the amount converted to `int32`; the pending row stores the negated converted amount; when that amount wraps to a negative number, the caller's total rises and available is unchanged; on failure the table is unchanged |
| Outflow.FinalizeCheck | internal/outflow/server.go:134-150 | 404 for a missing flow or another user's flow; 409 for a finalized flow; else go ahead |
| Outflow.AcceptsFor | internal/outflow/server.go:152-157 | PATCH accepts; DELETE rejects |
| Outflow.HandleFinalizeOutflow | internal/outflow/server.go:115-175 | a bad id is a 500; otherwise the row checks decide; 204 exactly when they pass, and then the flow is finalized by the verb; on any error the table is unchanged |
| Outflow.SecondFinalizeConflicts | internal/outflow/server.go:147-150 | once a flow is finalized, finalizing it again is a 409 "transaction is not pending" |
| Records.HandleGetBalance | internal/records/server.go:38-58 | the caller's total and available balance, or 0/0 without flows; a store fault is a 500; available ≤ total |
| Records.Describe | internal/records/history.go:32-50 | history descriptions are those of manual credits and alert redemptions; other types get "" |
| Records.HistoryOmitsInflowDescriptions | internal/records/history.go:32-50 | the history leaves cheers, subs and gift subs undescribed, although the event stream describes them |
| Records.BuildHistoryItem | internal/records/history.go:11-30 | keeps id, type and delta; state and timestamp follow finalization |
| Records.HistoryItemMatchesEvent | internal/records/history.go:11-30 | a history item agrees with the event-stream transaction for the same flow, except for the description |
| Records.ItemsAppend | internal/records/server.go:95-99 | building items distributes over concatenation |
| Records.PageLimit | internal/records/server.go:73-79 | the page size is 50 unless `max` parses, and is then clamped to [1, 100] |
| Records.PageOf | internal/records/server.go:95-103 | at most `limit` items, built from the first rows; a next cursor exactly when a further row was fetched, and it is that row's id |
| Records.HandleGetHistory | internal/records/server.go:66-112 | at most the page size of the caller's own items; without a cursor, the newest ones, and a cursor exactly when more remain |
| Records.PageRowsAreCallers | internal/records/server.go:90-99 | every item on a page comes from one of the caller's own rows |
| Records.TakeTake | internal/records/server.go:95 | taking n from a prefix of m ≥ n rows is taking n |
| Records.CursorStartsAtRow | gen/queries/history_test.go:55-70 | the cursor is inclusive: a page from row k starts at row k |
| Records.PageAtRow | internal/records/server.go:90-103 | the page at row k holds rows k.. of the history, with the cursor of row k + limit |
| Records.PageOfSuffix | internal/records/server.go:95-103 | paging the `limit + 1` rows fetched from row k gives the next `limit` rows and, when there is one, the following row as the cursor |
| Records.PageAtStart | internal/records/server.go:90-103 | the first page is the page at row 0, or empty for an empty history |
| Records.WalkFrom | internal/records/server.go:100-103 | following next cursors from row k visits the pages k, k + limit, … |
| Records.ChainCoversHistory | internal/records/server.go:95-103 | those pages together list the history from row k on, in order |
| Records.PaginatorAt | internal/records/server.go:66-112 | the handler's page at each row is the expected page |
| Records.PaginatorAgrees | internal/records/server.go:66-112 | the same, for every row at once |
| Records.StartIsNewestRow | internal/records/server.go:81-103 | without a cursor, the handler answers as it does for the cursor of the newest row |
| Records.FollowPagesNonEmpty | internal/records/server.go:66-112 | following cursors from the newest row of a non-empty history lists that history once, in order |
| Records.FollowPagesVisitsHistoryOnce | internal/records/server.go:66-112 | a client that follows next cursors from the start sees the caller's whole history once, in history order |
| Subscribers.RemoveFirst | internal/notifications/subscribers.go:27-36 | removes one occurrence when present, else leaves the list |
| Subscribers.RemoveFirstSplices | internal/notifications/subscribers.go:29-34 | the list with the first occurrence cut out |
| Subscribers.RemoveFirstMultiset | internal/notifications/subscribers.go:23-38 | removes exactly one copy of the channel |
| Subscribers.RemoveFirstOfAppended | internal/notifications/subscribers.go:14-38 | unregistering a channel just registered restores the list |
| Subscribers.Sent | internal/notifications/subscribers.go:44-49 | sending never adds or drops a channel's queue |
| Subscribers.SentStep | internal/notifications/subscribers.go:46-48 | one send appends the transaction to one channel's queue |
| Subscribers.SentDelivers | internal/notifications/subscribers.go:40-50 | each listed channel gets the transaction once; the others are untouched |
| Subscribers.DistinctCons | internal/notifications/subscribers.go:19 | distinctness of a channel list, head and tail |
| Subscribers.RemoveFirstKeeps | internal/notifications/subscribers.go:23-38 | unregistering keeps the remaining channels open, distinct and the account's own |
| Subscribers.OpenForAfterOpen | internal/notifications/subscribers.go:14-21 | registering a new channel keeps every list open and distinct |
| Subscribers.OpenForSameKeys | internal/notifications/subscribers.go:40-50 | sending keeps every registered channel open |
| Subscribers.SubscriberChannels.Register | internal/notifications/subscribers.go:14-21 | a new empty channel is appended to the account's list |
| Subscribers.SubscriberChannels.Unregister | internal/notifications/subscribers.go:23-38 | removes the first occurrence of the channel from the account's list; nothing else changes |
| Subscribers.SubscriberChannels.Broadcast | internal/notifications/subscribers.go:40-50 | each of the account's channels receives the transaction; no other queue changes |
| Subscribers.SubscriberChannels.Receive | internal/notifications/server.go:152 | takes the oldest queued transaction, if any |
| Subscribers.BroadcastReachesOnlyAccount | internal/notifications/subscribers.go:40-50 | a broadcast reaches a channel exactly when it is registered for the event's account |
| Notifications.EventTransaction | internal/notifications/server.go:53-59 | the event's id, delta and parsed type; state and timestamp follow finalization; the description is the full one |
| Notifications.EventsFor | internal/notifications/server.go:53-60 | one transaction per event of the account, no more |
| Notifications.EventsForOtherAccounts | internal/notifications/server.go:59-60 | events of other accounts never reach a subscriber |
| Notifications.Dispatch | internal/notifications/server.go:53-60 | one event is broadcast to exactly its account's channels |
| Notifications.InboxStep | internal/notifications/server.go:48-63 | a channel's inbox grows by one event at a time |
| Notifications.InboxGrows | internal/notifications/server.go:48-63 | after i + 1 events each queue holds its inbox of those events |
| Notifications.ReadEvents | internal/notifications/server.go:48-63 | after reading events, each channel's queue holds, in order, the transactions of its account's events |
| Notifications.Admit | internal/notifications/server.go:106-128 | the accept check, the token check and the lookup in order, with their statuses and messages |
| Notifications.Frames | internal/notifications/server.go:152-158 | no transactions give no frames |
| Notifications.FramesAppend | internal/notifications/server.go:147-159 | frames of consecutive transactions concatenate |
| Notifications.HandleGetNotifications | internal/notifications/server.go:106-168 | an admitted user's stream is the preamble then one frame per event of that user; a refused request gets the error |
| Notifications.Stream | internal/notifications/server.go:130-159 | registering, streaming and unregistering leaves the subscriber table as before and yields ":\n\n" then the user's frames |
| Notifications.StreamEvents | internal/notifications/server.go:147-159 | the frames are those of the user's events, in order |
| Notifications.StreamEvent | internal/notifications/server.go:152-158 | one event yields one frame exactly when it is the user's |
| Notifications.StreamStep | internal/notifications/server.go:147-159 | the frames of one more event extend the frames so far |
| Notifications.DrainChannel | internal/notifications/server.go:152-158 | draining a channel frames all of its queued transactions and empties it |
| Notifications.IdentifyUser | internal/notifications/server.go:120-128 | a token identifies a user exactly when an unexpired stored token with that value exists, and it is that token's user |
| Notifications.Purged | internal/notifications/server.go:85-91 | purging only removes tokens |
| Notifications.PurgedKeeps | internal/notifications/server.go:85-91 | a token survives exactly when it belongs to someone else or is unexpired |
| Notifications.IdentifyAppend | internal/notifications/server.go:92-99 | a newly stored token is consulted only after the tokens already stored |
| Notifications.PurgeKeepsIdentity | internal/notifications/server.go:85-91 | purging expired tokens never changes who a token identifies later |
| Notifications.SseTokenStore.PurgeForUser | internal/notifications/server.go:88-91 | removes the user's expired tokens |
| Notifications.SseTokenStore.StoreToken | internal/notifications/server.go:92-99 | appends the token with its expiry time |
| Notifications.SseTokenStore.Identify | internal/notifications/server.go:120-128 | the lookup agrees with `IdentifyUser` |
| Notifications.HandlePostNotifications | internal/notifications/server.go:65-104 | generate, purge, store a 600-second token and return it; each failure is a 500 and stops there |
| Notifications.IssuedTokenIdentifiesCaller | internal/notifications/server.go:85-103 | a freshly issued token identifies the caller for 600 seconds and nobody after |
| Cheer.Validate | internal/cheer/server.go:43-71 | the checks in order with their messages; success exactly for a JSON body with a positive amount; records the caller, the truncated message and the amount converted to `int32` |
| Cheer.RecordedCheerRenders | internal/cheer/server.go:69-77 | a recorded cheer shows as an accepted credit of the recorded amount that thanks the viewer, quoting the message |
| Cheer.WrappedCheerDebits | internal/cheer/server.go:56-71 | as written, a cheer of 2^32 - 1 points is recorded as -1 |
| Cheer.ValidateBounded | internal/cheer/server.go:56-71 | success exactly for amounts in 1..2^31 - 1, which are recorded unchanged; agrees with the written checks in range |
| Cheer.HandlePostCheer | internal/cheer/server.go:36-84 | the handler with the bounded checks: the response is the checks' error, a 500 for a store error, or the new flow's id; on success one finalized, accepted credit of the amount with the truncated message is appended and both balances rise by the amount; on failure the table is unchanged |
| Subscription.SubscriptionCredit | internal/subscription/server.go:77 | an `int32` value, equal to base × multiplier whenever that fits |
| Subscription.GiftSubCredit | internal/subscription/server.go:131-136 | an `int32` value, equal to base × count × multiplier whenever that fits |
| Subscription.ValidateSubscription | internal/subscription/server.go:47-85 | the checks in order with their messages; success exactly for positive base and multiplier; the recorded parameters |
| Subscription.SubscriptionCreditIgnoresFlags | internal/subscription/server.go:77-85 | the initial and gift flags never change the credit; within `int32` the credit is base × multiplier ≥ base |
| Subscription.ValidateGiftSub | internal/subscription/server.go:105-139 | the checks in order with their messages; success exactly for positive base, count and multiplier; the recorded parameters |
| Subscription.GiftSubCreditPerSub | internal/subscription/server.go:131-136 | within `int32`, one more gifted sub adds base × multiplier |
| Admin.ValidateRequest | internal/admin/server.go:36-62 | the checks in order, each with its message (content type, decode error, exactly one of id and name, non-positive amount, empty note); success exactly for JSON, exactly one of id and name, a positive amount and a non-empty note |
| Admin.HandlePostManualCredit | internal/admin/server.go:35-86 | a given user id is used as it is; a display name is resolved, and a failed lookup is a 500 with its prefix; the recorded note, user and `int32` amount |
| Admin.UserIdNeedsNoResolver | internal/admin/server.go:64-75 | a request that names the user id never depends on the Twitch lookup |
| Admin.RecordedManualCreditRenders | internal/admin/server.go:76-86 | a recorded manual credit shows as an accepted credit "Manual credit: <note>" |
| Client.FinalizeMethod | client.go:186-191 | PATCH to accept, DELETE to reject |
| Client.FinalizeError | client.go:186-209 | no error exactly on 204; a transport error passes through; any other status names the status, the method and the URL |
| Client.AlertRedemptionResult | client.go:112-142 | 409 exactly gives "not enough points"; success exactly for 200/201 with an allowed content type and a decodable body, yielding its flow id; each error message |
| Client.ContentTypeCheckInert | client.go:129-132 | the content-type check reads a header key no response has, so any 200/201 with a decodable body succeeds whatever its content type |
| Client.Step | client.go:218-237 | on a finalized context no request is made; otherwise one PATCH or DELETE, and the context is finalized exactly on 204 |
| Client.RunWhenFinalized | client.go:218-237 | once finalized, no call makes a request |
| Client.SettlesAtMostOnce | client.go:211-237 | across any sequence of Accept and Finalize calls the flow is settled at most once |
| Client.AcceptThenAnythingOneRequest | client.go:218-237 | after a successful Accept, later calls send no request |
| Client.TransactionContext.constructor | client.go:138-142 | a new context for the flow, not yet finalized |
| Client.TransactionContext.Accept | client.go:218-227 | refuses on a finalized context; otherwise sends PATCH and finalizes only on success |
| Client.TransactionContext.Finalize | client.go:229-237 | a no-op once finalized; otherwise sends DELETE and finalizes only on success |
| Client.RequestAlertRedemption | client.go:87-143 | returns a fresh, unfinalized context for the decoded flow id, or the error `AlertRedemptionResult` gives |
| MockLedger.AvailableAppendPending | mock/mock.go:59-66 | a new pending debit lowers the available balance by its amount |
| MockLedger.AvailableUpdate | mock/mock.go:69-82 | changing one debit's state moves the balance by that debit's change in weight |
| MockLedger.AvailableAfterReject | mock/mock.go:93-98 | rejecting a pending debit gives its amount back |
| MockLedger.AvailableAfterAccept | mock/mock.go:84-91 | accepting a pending debit keeps the balance |
| MockLedger.MockDebit.constructor | mock/mock.go:62-64 | a new debit is pending |
| MockLedger.MockDebit.Accept | mock/mock.go:84-91 | "already finalized" on a finalized debit; otherwise accepted and finalized |
| MockLedger.MockDebit.Finalize | mock/mock.go:93-98 | never fails; a pending debit becomes rejected, a final one stays |
| MockLedger.Snapshot | mock/mock.go:17-27 | one state per debit |
| MockLedger.SnapshotAt | mock/mock.go:75 | the i-th state is that of the i-th debit |
| MockLedger.MockClient.constructor | mock/mock.go:29-33 | no token granted |
| MockLedger.MockClient.Grant | mock/mock.go:35-40 | the token's state is replaced by the balance and no debits |
| MockLedger.MockClient.GetAvailableBalance | mock/mock.go:69-82 | unauthorized for an unknown token; else the initial balance less every debit not rejected |
| MockLedger.MockClient.RequestAlertRedemption | mock/mock.go:54-67 | unauthorized or not enough points with nothing recorded; otherwise a fresh pending debit appended to the token's list and handed back |
| MockLedger.RequestLowersAvailable | mock/mock.go:54-82 | a granted debit lowers the token's available balance by its amount |

## Left out

- Authentication is left out. `auth.GetClaims`, the JWT checks of the inflow routes and the access-token checks are replaced by a given caller.
- The cheer and subscription handlers do not return after a claims error (internal/cheer/server.go:39-41, internal/subscription/server.go:43-45). The model only covers a caller that is already known.
- JSON decoding of request bodies is an input, and so is JSON encoding of responses and events. The case-insensitive matching of field names by Go's decoder is not modelled.
- A failing JSON encoding of a response (a 500 written after the body) is not modelled.
- UUID generation and parsing are left out. Ids come from a counter, and the parsed `{id}` or `from` value is an input.
- A `from` cursor that does not parse is ignored by the source, which the model reflects by taking `from` as an `Option`.
- The SQL text of the queries is not part of this model. Their behaviour is taken from the query tests.
- `PurgeSseTokensForUser` is modelled as deleting that user's expired tokens. The test double in internal/notifications/server_test.go purges every expired token.
- Token generation (internal/notifications/token.go) is an input, and so is the Twitch name lookup (internal/admin/twitch.go).
- The notifications stream's keep-alive timer and its `select` loop are left out, and so are server and request cancellation.
- The subscribers' mutex is left out; the model is sequential.
- Channel capacity (32) and a blocking send to a full channel are left out. Every queue is unbounded.
- The database `LISTEN` connection in cmd/server/main.go is left out. Events are given as a sequence.
- FlowStore.AccountHistory: the history is ordered by insertion position. That is the query's `created_at DESC` order only when each insert's `now` is later than every earlier row's creation time. `Chronological` states this condition, and `Store.Insert` preserves it, but `Store.Valid` does not require it, because the handlers take the clock as an input. Ties in `created_at` are not modelled; the SQL leaves their order unspecified, and its `created_at <=` cursor would then also return tied rows inserted after the cursor row.
- Records.HandleGetHistory: the error from the history query is ignored by the source. The model does not take it as an input.
- Outflow.HandleFinalizeOutflow: the source overwrites the `FinalizeFlow` error with the `RowsAffected` call. On a nil result that call would panic; the model leaves this out.
- Outflow.HandleFinalizeOutflow: the `numRows != 1` guard cannot fire in the sequential model, because the row was just checked as pending.
- The check-then-insert race between the balance read and the insert in `handleCreateOutflow` is left out; the model is sequential.
- Subscription.SubscriptionCredit: credit multipliers are whole numbers. The source takes a `float64` and rounds the product, and floating point is left out.
- Subscription.GiftSubCredit: credit multipliers are whole numbers. The source truncates the `float64` multiplier with `int(...)` before multiplying, and does not round. So a multiplier of 0.5 passes the `> 0` check and credits 0 points, and 1.5 counts as 1. The model cannot express these fractional multipliers, because floating point is left out.
- Subscription.SubscriptionCredit: Go's conversion of an out-of-range float to `int32` is implementation-specific. The model wraps it like an integer conversion.
- The subscription, gift-sub and manual-credit handlers convert the amount with `int32(...)` as the cheer handler does. They are modelled as written, without a corrected variant.
- Client.RequestAlertRedemption: the HTTP exchange is an input, namely the response status, headers and decoded body, or the transport error.
- `RequestCreditFromCheer`, `RequestCreditFromSubscription`, `RequestCreditFromGiftSub` and `postInflow` in client.go are left out. They build a request and follow the same status, content-type and decode checks as `RequestAlertRedemption`.
- The mock's `RequestCreditFrom*` methods only return "not mocked" and are left out.
- Client.TransactionContext: the access token and the request-id header are carried but not checked.
- `requests` is a ghost record of the verbs sent.
- Outflow.HandleCreateOutflow: this handler uses the corrected checks, which refuse an amount above the `int32` range. The handler as written is Outflow.HandleCreateOutflowAsWritten.
- Cheer.HandlePostCheer: this handler uses the corrected checks of Cheer.ValidateBounded. The written checks are Cheer.Validate, and Cheer.WrappedCheerDebits shows what they record.
- Transactions.Describe: a non-integral `credit_multiplier`, such as 1.5, does not decode in the model. The description then falls back to "Thank you for being a subscriber!" (or "Thank you for gifting subs!"). The source writes the prefix and a tier suffix with the multiplier formatted by `%.f`, here " (at a tier with 2x credit)". Floating point is left out.
- The corrected outflow and cheer checks refuse an amount above the `int32` range. Their messages, "numPointsToDebit is too large" and "invalid request payload: 'numPointsToCredit' is too large", are not in the source; the model supplies them.

## Findings

| source | as written | input that shows it | evidently intended | confidence | as-written member | corrected member |
|---|---|---|---|---|---|---|
| internal/outflow/server.go:63-94 | a positive 64-bit amount is converted with `int32(...)` for both the balance check and the insert | `numPointsToDebit` = 4294967291 with 0 points available: it passes as -5, and the stored delta is +5 | amounts beyond `int32` are refused, so a debit never credits | high (not executed) | Outflow.ValidateRequestAsWritten, Outflow.DebitAsWritten, Outflow.AsWrittenDebitCredits, Outflow.HandleCreateOutflowAsWritten | Outflow.ValidateRequest, Outflow.Debit, Outflow.CorrectedRefusesWrappedAmount, Outflow.CorrectedAgreesInRange, Outflow.HandleCreateOutflow |
| internal/cheer/server.go:56-71 | a positive 64-bit amount is converted with `int32(...)` for the insert | `numPointsToCredit` = 4294967295 is recorded as a credit of -1 | amounts beyond `int32` are refused, so a cheer never debits | high (not executed) | Cheer.Validate, Cheer.WrappedCheerDebits | Cheer.ValidateBounded, Cheer.HandlePostCheer |
