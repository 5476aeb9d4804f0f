# Bank ledger: model and proofs

A Dafny model of the ledger service: double-entry deposits, withdrawals and transfers over two SQL
tables, the serializable-retry wrapper around them, the idempotency middleware above them, and the
per-client rate limiter. `dafny verify dfyconfig.toml` checks everything.

How the modules build on each other:

- `Money`, `Ledger`, `Verdicts`, `LedgerInvariants`, `History`: amounts, the tables, each operation as one
  atomic step, why it is refused and what it posts, the ledger invariant, and serial histories of atomic
  steps.
- `Store`, `Retries`, `LedgerService`, `Backoff`: the code as it is written, imperative. `Queries` is one
  transaction's handle, the three bodies run query by query, `ExecTxOnce` and `ExecTx` begin, commit,
  roll back and retry. Every way a begin, a query, a rollback or a commit can fail is an input; `Retries`
  says for each of them what becomes of the call.
- `Concurrency`, `Refinement`, `HiddenRows`, `LockOrder`: any number of `ExecTx` calls interleaving query by query
  under row locks, with aborts, refused and lost commits, cancellations and retries at any point;
  proved to refine the serial histories; what a snapshot can hide; and what can and cannot deadlock.
- `SoloCall` ties the two forms of `ExecTx` together: whatever the imperative one does, for any failure
  pattern, is a run of one call in the interleaved system. Both are proved against the same `Refusal`
  and `Posted` of module `Ledger`.
- `KeyTable`, `ResponseCache`, `Handlers`: the key table, the middleware and its response
  interceptor, and the status each handler gives to each outcome.
- `EndToEnd`, `AtMostOnce`: requests through middleware, handler, `ExecTx` and tables as one transition
  system whose ledger part is `Concurrency`; the at-most-once property and what it excludes. `OneRequest`
  ties this system to the middleware class.
- `RequestRuns`, `Disturbances`, `SharedDigest`: runs of requests piece by piece, and with them, for each
  exclusion and each property that fails, the runs that show it.
- `RateLimit`, `RateLimiter`, `Endpoints`: token buckets with eviction on values, the same as objects
  updated in place, and the choice of a limiter by path pattern.

Where the code does not keep a property on all inputs, the exact condition is proved, with the runs
that fail:

- At most once, end to end. The disturbances are: an applied-but-lost commit of a deposit or withdrawal,
  overlapping requests (a retry sent after the answer was read and before it is saved is one), a failing
  lookup, a failing save, and a second user with the same digest. A user's requests with one digest never
  change the ledger twice exactly when none of these is tolerated, and the user's answer after the first
  one below 500 never changes exactly when none but lost commits is (`AtMostOnceExactly`,
  `OneAnswerExactly`). With any one of them a request and its retry are both posted, from any reachable
  state in which no call is inside an attempt and this user's digest has not been heard of, for any
  operation the ledger takes twice; a lost commit for any such deposit or withdrawal; a second user once
  that one's answer is stored, since the digest alone is the primary key (`DisturbedTwice`).
- Whose success it is. The digest covers key, user and body but not the path, so a request for another
  account or another operation is told 200, in the first one's words, and nothing is posted for it. A
  success means that one operation was posted, once, and it is the request's own exactly if it asked for
  what the request that was served had asked for (`SuccessPostsTheServedOperation`). Over all undisturbed
  runs whose requests ask for given operations, every success is the request's own if and only if no two
  of them differ of which one can succeed (`SuccessIsOwnExactly`, `SecondAccountGetsNothing`); and which
  operations can succeed in some run at all is known exactly (`AcceptedSomewhereExactly`).
- Refusals are not always refusals. Lost commits of transfers need no exclusion above, because the
  transfer handler turns every ledger error into a 400, which is stored. But then the money has moved
  and every retry is told 400. A 4xx answer means that nothing changed exactly when no transfer of the
  digest had its commit applied and lost (`RefusedRequestsChangeNothingExactly`,
  `RefusedTransferMovedMoney`).
- Deadlock. Any number of calls can all wait for each other exactly when the rows they lock form a ring:
  each locks second what the next locks first, and no two start on one row (`DeadlockExactly`).
- What hides in a snapshot. Refusals inside a transaction are the verdict of the tables of that moment,
  exactly unless the row asked for was created after the attempt's snapshot; then too if the operation's
  second row does not exist at all (`RefusalIsVerdictExactly`). A transfer to an account that is just
  being opened is refused in this way, although the tables would accept it
  (`FundedTransferMissesNewRow`).
- Rate limiting. Eviction is unobservable, and the admission bound holds, exactly when idle buckets refill
  within the ttl; otherwise a drain, a sweep after more than the ttl and a second drain give a client its
  burst twice, from any starting time, so also with the sweep on a tick of the five-minute ticker.
- The stored status equals the status on the wire exactly when the last status a handler sets is the one
  its first action sent, or it sets none.
- The digest separates requests exactly when their keys have one length.

The funds check compares the unrounded amount while the posting is rounded to four places.
`FundsCheckCoversPosting` shows that this never overdraws; `FundsCheckIsExactUpToRounding` shows the
one case where it refuses a posting the balance would cover.

## Assumptions

- Money amounts are exact; `StringFixed(4)` rounds half away from zero; a NUMERIC column's text always
  parses, so the "invalid balance" branches are unreachable.
- Transaction ids drawn by `uuid.New` are fresh. The settlement row's generated id is called
  `SETTLEMENT`; that exactly this row answers the settlement queries is part of the invariant.
- A lock query returns the latest committed row or the attempt fails; a row outside the attempt's
  snapshot is not found, and not waited for. Row locks are exclusive and end with the attempt. A rolled back attempt has no
  effect. PostgreSQL reports 40001 only for attempts without effect.
- The digest is injective on the concatenated text, so the model uses the text itself. What a request
  asks for is decided by its path and body; of the two, the digest sees the body.
- A rate.Limiter is the documented token bucket in exact arithmetic, its clock does not run backwards,
  and `getLimiter` with `Allow` is one step.

## Model

| member | source | states |
|---|---|---|
| Money.RoundNegation | internal/service/ledger.go:104 | the negated balance update has exactly the magnitude of the entry |
| Money.RoundError | internal/service/ledger.go:71-72 | a posting differs from the requested amount by at most half of 0.0001 |
| Money.RoundingExactly | internal/service/ledger.go:72 | the rounded amount is the nearest whole number of units, of two the one farther from zero, and nothing else is |
| Money.TiesGoAwayFromZero | internal/service/ledger.go:96 | every tie at the fifth place goes away from zero, on both sides |
| Money.RoundMonotone | internal/service/ledger.go:160 | a larger amount never posts less |
| Money.RoundFixesUnits | db/migrations/000002_create_accounts_table.up.sql:5 | every four-place balance is its own rounding |
| Money.RangeIsNumeric | db/migrations/000002_create_accounts_table.up.sql:5 | the stored range is fifteen digits before the point |
| Money.FundsCheckCoversPosting | internal/service/ledger.go:150-153 | a passed check on the unrounded amount covers the rounded posting |
| Money.FundsCheckIsExactUpToRounding | internal/service/ledger.go:243-246 | the check refuses a coverable posting exactly when the amount rounds down onto the whole balance |
| Money.RoundsToZero | db/migrations/000003_create_entries_table.up.sql:17-19 | which positive amounts vanish when rounded |
| Ledger.NoRefusal | internal/service/ledger.go:129-207 | an operation is accepted exactly when none of its six queries refuses |
| Ledger.FirstRefusal | internal/service/ledger.go:222-302 | the first refusing query decides the error |
| Ledger.WritesMakePosting | internal/service/ledger.go:69-109 | the four writes in order make the declared posting, also when both legs are one account |
| Ledger.AcceptedFacts | internal/service/ledger.go:129-181 | acceptance implies existing rows, one currency, a positive in-range posting and covered funds |
| Ledger.AcceptedStaysInRange | internal/service/ledger.go:95-109 | an accepted operation keeps every balance inside NUMERIC(19,4) |
| Ledger.VanishingAmountRefused | db/migrations/000003_create_entries_table.up.sql:17-19 | a positive amount that rounds to zero is stopped by the single-side check on any tables |
| Verdicts.BusinessErrorsExactly | internal/service/ledger.go:129-153 | no rows, wrapped or bare, exactly for a missing row; currency mismatch exactly for two currencies; insufficient funds exactly for a payer whose balance is below the unrounded amount; in this order |
| Verdicts.RefusalSaysWhy | internal/service/ledger.go:222-302 | every refusal and its error: missing row, currencies, funds, an amount too large or vanishing, a balance that would not fit; none otherwise |
| Verdicts.EntriesAccepted | db/migrations/000003_create_entries_table.up.sql:10-19 | an entry is taken exactly if its account exists and one side is positive and in range, the other zero |
| Verdicts.DepositPosts | internal/service/ledger.go:69-109 | the two entries and the two balances of a deposit, all else untouched |
| Verdicts.WithdrawalPosts | internal/service/ledger.go:158-198 | the same of a withdrawal |
| Verdicts.TransferPosts | internal/service/ledger.go:252-292 | the same of a transfer |
| Verdicts.SettlementRowExactly | db/queries/accounts.sql:32-36 | flag and name make the settlement row, neither alone |
| Verdicts.OpeningAddsAnEmptyAccount | db/queries/accounts.sql:1-4 | a new account is empty, as asked for, and changes no other |
| LedgerInvariants.SeededInvariant | db/migrations/000002_create_accounts_table.up.sql:11-16 | the migrated tables satisfy the ledger invariant |
| LedgerInvariants.OpenKeepsInvariant | db/queries/accounts.sql:1-4 | a new account in any currency keeps it |
| LedgerInvariants.PostKeepsAgreement | internal/service/ledger.go:158-198 | cached balances stay equal to the journal's credits minus debits |
| LedgerInvariants.PostKeepsTotals | internal/service/ledger.go:234-236 | every per-currency total is unchanged by an accepted operation |
| LedgerInvariants.PostKeepsPairs | internal/service/ledger.go:66-92 | the journal stays a row of balanced pairs with distinct transaction ids |
| LedgerInvariants.PostKeepsInvariant | internal/service/ledger.go:49-118 | agreement, no overdraft, conservation, range, journal shape and the single settlement row are all kept |
| LedgerInvariants.SettlementNeverPositive | internal/service/ledger.go:141-143 | the settlement balance is never positive and other currencies hold nothing |
| LedgerInvariants.NothingLeavesSettlement | internal/service/ledger.go:150-153 | no withdrawal or transfer out of settlement is ever accepted |
| LedgerInvariants.TransactionHasTwoLegs | db/queries/entries.sql:12-15 | each transaction id lists exactly two entries, and they balance |
| LedgerInvariants.JournalSumInRange | db/queries/accounts.sql:38-41 | the cast of the journal sum never overflows, however many entries there are |
| LedgerInvariants.AcceptedIsEverAccepted | internal/service/ledger.go:129-181 | whatever is accepted has an amount that neither vanishes nor overflows, and is not taken from settlement |
| History.ReplayKeepsInvariant | internal/service/ledger.go:42-303 | every serial history of operations keeps the ledger invariant |
| History.ReplayOnlyAppends | db/queries/entries.sql:1-4 | later events never rewrite or drop earlier entries |
| History.PostedIsEverAccepted | internal/service/ledger.go:42-303 | the same of everything a serial history has posted |
| Store.VerdictNone | internal/service/ledger.go:49-118 | a body succeeds exactly when neither a fault nor a refusal meets any of its queries |
| Store.Queries.constructor | internal/db/store.go:69 | a transaction handle starts from the committed tables |
| Store.Queries.GetAccountForUpdate | db/queries/accounts.sql:11-15 | the row, or no rows, or the injected fault |
| Store.Queries.GetSettlementAccountForUpdate | db/queries/accounts.sql:32-36 | finds the settlement row by its flag and name |
| Store.Queries.CreateEntry | db/queries/entries.sql:1-4 | appends one entry or fails on type, constraint or fault, leaving the view as it was |
| Store.Queries.UpdateAccountBalance | db/queries/accounts.sql:22-25 | a relative update of one row, refused on overflow, no effect without a row |
| Store.DepositBody | internal/service/ledger.go:49-118 | the query-by-query body gives the atomic verdict and, on success, the atomic posting |
| Store.WithdrawBody | internal/service/ledger.go:129-207 | the same for withdrawals |
| Store.TransferBody | internal/service/ledger.go:222-302 | the same for transfers |
| Store.RunBody | internal/db/store.go:70 | the function given to ExecTx is one of the three bodies |
| Store.Store.ExecTxOnce | internal/db/store.go:61-83 | one attempt has exactly the outcome its failures prescribe |
| Store.Store.ExecTx | internal/db/store.go:38-59 | the loop has exactly the result, table effect, run count, commit count and waiting time of the recursive specification |
| Store.RetriedAttemptIsClean | internal/db/store.go:46-49 | an attempt that is retried has not touched the tables |
| Store.AttemptEffect | internal/db/store.go:61-83 | one attempt posts at most once, exactly once on nil, and with an error only through a lost commit |
| Store.ExecEffects | internal/db/store.go:38-59 | for any attempt bound and failure pattern: nil means one commit, the last attempt's; an error means none or a lost one; only 40001 is retried; waits add up |
| Wrappers.SerializationErrorsExactly | internal/db/store.go:32-35 | retried are the errors of SQLSTATE 40001 under any number of layers, and no others |
| Retries.AttemptReports | internal/db/store.go:61-83 | an attempt that meets an error at its begin, a query or its commit reports it, wrapped as the place demands, and has done nothing |
| Retries.SerializationIsRetried | internal/db/store.go:40-57 | attempts that meet 40001 anywhere, any number of them, and then an undisturbed one: success, with that one's posting, after the waits in between |
| Retries.SerializationExhausts | internal/db/store.go:51-58 | if all attempts meet 40001 the call fails with it, wrapped once more, and has done nothing |
| Retries.CancelledInWait | internal/db/store.go:53-55 | a context that ends in a wait ends the call, without effect |
| Retries.OthersAreNotRetried | internal/db/store.go:47-50 | any other error is returned at once, without effect |
| Retries.RefusalIsReturned | internal/db/store.go:71-76 | so is a refusal by the tables |
| Retries.StepRetriesExactly | internal/db/store.go:46-57 | under interleaving too, an attempt is followed by another exactly after 40001 and while any are left |
| LedgerService.ExecIsAllOrNothing | internal/db/store.go:69-82 | whatever fails, the tables are the old ones or the whole posting |
| LedgerService.UndisturbedCallsAreDecided | internal/db/store.go:69-82 | if nothing goes wrong the tables decide: the posting, or their own error and no change |
| LedgerService.TenAttemptsGiveUp | internal/db/store.go:39-58 | ten attempts that all meet 40001 wait 5550 ms and do nothing |
| LedgerService.LedgerService.Deposit | internal/service/ledger.go:42-119 | an amount that is no number, zero or less is invalid and changes nothing; any other goes through ExecTx, all or nothing, and if nothing goes wrong as the tables decide |
| LedgerService.LedgerService.Withdraw | internal/service/ledger.go:122-208 | the same for withdrawals |
| LedgerService.LedgerService.Transfer | internal/service/ledger.go:211-303 | the same, and a transfer to the same account is refused before any transaction |
| LedgerService.LedgerService.ReconcileAccount | internal/service/ledger.go:306-346 | compares the balance of the first read with the journal of the second; never a match for a missing account or a failed read |
| LedgerService.ReconciledExactly | internal/service/ledger.go:306-346 | it reports a match exactly if both reads worked, the account is there and the figures agree; else the error that tells which |
| LedgerService.ReconciliationUnderInterleaving | internal/service/ledger.go:306-346 | calculated minus stored is the net committed in between; a match exactly when it is zero |
| LedgerService.QuietReconciliationMatches | internal/service/ledger.go:306-346 | with no commit in between it always matches |
| Backoff.RetryWait | internal/db/store.go:86-96 | the loop equals min(50 ms * 2^n, 1 s) within a signed 64-bit duration |
| Backoff.WaitsNeverShrink | internal/db/store.go:86-96 | waits grow monotonically and stay within one second |
| Backoff.TotalMillisClosedForm | internal/db/store.go:51-53 | closed form of the summed waits |
| Backoff.TenAttemptsWait | internal/db/store.go:39 | ten attempts wait 5550 ms in all |
| Concurrency.TxnFrame | db/queries/accounts.sql:15 | table changes outside the locked rows leave an open attempt valid |
| Concurrency.CommitIsAtomic | internal/db/store.go:78 | committing a complete buffer is the atomic operation on the tables of that moment |
| Concurrency.FlushIsLocal | internal/service/ledger.go:95-109 | a commit writes only rows its attempt has locked |
| Concurrency.StepKeepsInv | internal/service/ledger.go:129-207 | every query, commit, failure, rollback and retry of any call keeps the system invariant |
| Refinement.QueryReports | db/queries/accounts.sql:11-15 | what a query logs and gives up with is the verdict of the tables it is made on, or a missing row when its row is hidden by the snapshot |
| Refinement.ConcurrentRefinesSerial | internal/service/ledger.go:42-303 | in every reachable state the tables are those of running the logged operations serially in commit order, each of them its own call's, refusals included, and the ledger invariant holds |
| Refinement.LostCommitsShow | internal/db/store.go:78-80 | a call has an error and a posting exactly when its commit was applied and lost |
| Refinement.CallPostsAtMostOnce | internal/db/store.go:38-59 | under interleaving: once on nil, on an error once if the commit was lost and else not at all, never before the end; and at most as many begun attempts as are allowed |
| Refinement.CheckVerdictIsSerial | internal/service/ledger.go:234-246 | the currency and funds checks give the verdict they would give on the serial history, although the rows were read one after the other |
| Refinement.RefusalIsVerdictExactly | internal/service/ledger.go:51-67 | a body that gives up gives up as the atomic operation would on the tables of that moment, exactly unless its row was hidden by the snapshot |
| HiddenRows.SnapshotHidesNewRow | internal/service/ledger.go:224-232 | from any state, any new call whose first row is free and whose second row is created after it began is refused for a missing row, although the tables accept its operation |
| HiddenRows.FundedTransferMissesNewRow | internal/service/ledger.go:229-232 | a run from the migrated tables in which that happens to a funded transfer, whose destination no handler looks up |
| Refinement.JournalOnlyGrows | db/queries/entries.sql:1-4 | no step of any run changes or removes a committed entry or an account |
| SoloCall.AttemptRuns | internal/db/store.go:61-83 | one attempt of the imperative code is a run of the interleaved system, to the same tables and result |
| SoloCall.ExecRuns | internal/db/store.go:38-59 | so is the whole retry loop, for any number of attempts and any failure pattern, other calls being left as they were |
| SoloCall.ExecTxIsACall | internal/db/store.go:38-59 | the same from the call's arrival in any reachable state where no other call is inside an attempt |
| SoloCall.CallWorks | internal/db/store.go:61-83 | an undisturbed call of an acceptable operation posts it, whether or not its commit is reported |
| LockOrder.CycleMember | internal/service/ledger.go:51-59 | a call in a wait cycle holds its first row and waits for its second |
| LockOrder.CyclesAreTransfers | internal/service/ledger.go:224-232 | while transfers avoid settlement, wait cycles consist of transfers only |
| LockOrder.HoldersNeverBlock | internal/service/ledger.go:131-139 | among deposits and withdrawals whoever holds a row can go on |
| LockOrder.DepositsAndWithdrawalsNeverDeadlock | internal/service/ledger.go:51-59 | no run of deposits and withdrawals contains a wait cycle |
| LockOrder.CyclesAreRings | internal/service/ledger.go:224-232 | in any wait cycle each call locks second what the next has locked first, and no two start on one row |
| LockOrder.RingsDeadlock | internal/service/ledger.go:224-232 | from any state, new calls forming such a ring of any length, whose first rows exist and are free, can all end up waiting |
| LockOrder.DeadlockExactly | internal/service/ledger.go:224-232 | any number of calls can deadlock, in a run from the migrated tables, if and only if their operations form a ring |
| LockOrder.TwoCallsDeadlockExactly | internal/service/ledger.go:224-232 | two calls can if and only if they lock the same two rows in opposite order |
| LockOrder.SettlementCrossings | internal/service/ledger.go:51-59 | deposits and withdrawals lock settlement first: they can deadlock with a transfer to settlement from their account, not with one the other way |
| Handlers.ClientErrorsAreCheckVerdicts | internal/api/handler.go:400-409 | a refused deposit or withdrawal answers 400 exactly when both rows exist and the checks said no, else 500; a refused transfer always 400 |
| Wrappers.IsExactly | internal/api/handler.go:330-332 | a known error is recognised under any number of layers, and nothing else is |
| Handlers.StatusExactly | internal/api/handler.go:326-336 | the status of every error: which a deposit and a withdrawal call the client's, and that a transfer calls all of them so |
| Handlers.AnswerTexts | internal/api/handler.go:334-340 | what each success is said to be, and that an error is its own text |
| KeyTable.DigestSeparates | internal/api/middleware_idempotency.go:83-87 | for keys of one length equal digests mean equal key, user and body |
| KeyTable.DigestSeparatesExactly | internal/api/middleware_idempotency.go:83-87 | the digest separates all requests with keys of two given lengths if and only if the lengths are equal |
| ResponseCache.ResponseBufferInterceptor.WriteHeader | internal/api/middleware_idempotency.go:25-28 | records every status, forwards it |
| ResponseCache.ResponseBufferInterceptor.Write | internal/api/middleware_idempotency.go:30-36 | defaults the status to 200, buffers and forwards the bytes |
| ResponseCache.ResponseBufferInterceptor.Serve | internal/api/middleware_idempotency.go:110-111 | after a handler run the field, the buffer and the wire hold what the script prescribes |
| ResponseCache.CaptureIsExact | internal/api/middleware_idempotency.go:25-36 | exactly when the stored status is the status on the wire |
| ResponseCache.OrderlyHandlersAreCaptured | internal/api/middleware_idempotency.go:113-124 | handlers that set the status at most once and first are captured exactly |
| ResponseCache.BytesConcat | internal/api/middleware_idempotency.go:30-36 | the captured body is the concatenation of the writes |
| ResponseCache.ReplayEqualsFirstResponse | internal/api/middleware_idempotency.go:96-103 | a repeat finds exactly the first client's status and bytes |
| ResponseCache.IdempotencyMiddleware.Handle | internal/api/middleware_idempotency.go:39-130 | POST, PUT and PATCH with a user and a key in either header: hits replay without running the handler, misses run and are saved below 500; all else passes through |
| ResponseCache.HeaderRule | internal/api/middleware_idempotency.go:41-58 | which requests are kept track of and under which key: either header will do, the X- header goes first |
| ResponseCache.SendTwice | internal/api/middleware_idempotency.go:89-128 | a tracked request sent twice runs its handler once and is answered twice the same |
| OneRequest.NewRequestsAreTracked | internal/api/middleware_idempotency.go:46-87 | whichever header carries the key, the middleware keeps track of the request under its digest |
| OneRequest.ScriptIsCaptured | internal/api/response.go:10-17 | what a handler writes, one status and one body, is captured as it is |
| OneRequest.HitIsHandled | internal/api/middleware_idempotency.go:96-103 | a hit of the request system is the middleware's replay: same table, status and bytes, no handler run |
| OneRequest.MissIsHandled | internal/api/middleware_idempotency.go:109-128 | a miss with its save is the middleware around a handler writing that answer: same table, status and bytes |
| EndToEnd.StepKeepsInv | internal/api/middleware_idempotency.go:82-128 | stages, ledger calls and stored rows stay consistent in every interleaving |
| EndToEnd.StoredResponsesAreFinal | db/migrations/000005_add_idempotency_keys.up.sql:2 | a stored response never changes or disappears, overlapping requests and failing saves included |
| EndToEnd.HitsReplayTheStoredRun | internal/api/middleware_idempotency.go:96-103 | every hit replays the stored row, which some request of that user really got |
| AtMostOnce.StepKeepsStages | internal/api/middleware_idempotency.go:82-128 | every step that is no disturbance, or a lost commit, keeps one open request and one standing answer per digest |
| AtMostOnce.LostCommitsShowInCalls | internal/db/store.go:78-80 | a request's call has an error and a posting exactly when its commit was applied and lost |
| AtMostOnce.ServerErrorIsClean | internal/api/handler.go:326-338 | a call that reached the tables belongs to a request under way or answered below 500, so a 5xx answer means no effect |
| AtMostOnce.EndToEndAtMostOnce | internal/api/middleware_idempotency.go:82-128 | over any number of undisturbed retries at most one change, one answer after the first below 500, exactly one change when it is the success, and then that of the operation all of them asked for |
| AtMostOnce.SuccessPostsTheServedOperation | internal/api/middleware_idempotency.go:96-128 | in every undisturbed run a success means one posting, of what the served request asked for, and of the request's own operation exactly if it is the same |
| AtMostOnce.RefusedRequestsChangeNothingExactly | internal/api/handler.go:511-515 | after a 4xx answer the ledger has changed not at all, or once, and once exactly when a transfer's commit was applied and lost |
| Disturbances.DisturbedTwice | internal/api/middleware_idempotency.go:89-128 | with the ledger idle and this user's digest unheard of, any one disturbance lets a request and its retry both post |
| Disturbances.AtMostOnceExactly | internal/api/middleware_idempotency.go:82-128 | at most one change per user and digest, over all runs, if and only if no disturbance is tolerated |
| Disturbances.DisturbedAnswers | internal/api/middleware_idempotency.go:96-128 | with this user's digest unheard of, any one disturbance but a lost commit lets a request and its retry get two answers |
| Disturbances.OneAnswerExactly | internal/api/middleware_idempotency.go:96-128 | one answer per user and digest, over all runs, if and only if nothing but lost commits is tolerated |
| Disturbances.LostTransferIsRefused | internal/api/handler.go:511-515 | with the ledger idle and the digest unheard of, a transfer whose commit is lost moves the money, answers 400 and has the 400 stored |
| Disturbances.RefusedTransferMovedMoney | internal/api/handler.go:511-515 | a concrete undisturbed run from the migrated tables in which that happens, retry included |
| SharedDigest.AcceptedSomewhereExactly | internal/service/ledger.go:129-181 | the operations that some run leads to accepting are exactly those whose amount fits and that do not take from settlement |
| SharedDigest.OtherOperationIsReplayed | internal/api/middleware_idempotency.go:83-103 | once the ledger is idle and takes a request's operation, a second request with its key, user and body is told 200 in its words, whatever it asks for, and makes no ledger call |
| SharedDigest.SuccessIsOwnExactly | internal/api/middleware_idempotency.go:83-87 | over all undisturbed runs whose requests of one digest ask for given operations, a success means that the request's own was posted if and only if none that can succeed comes with another |
| SharedDigest.SecondAccountGetsNothing | internal/api/middleware_idempotency.go:83-87 | a run from the migrated tables: one key and body sent to two accounts, both told of success, one paid |
| RateLimit.ServeByLevel | internal/ratelimit/ratelimit.go:96-98 | admission depends only on the client's level and takes one token |
| RateLimit.ServeExactly | internal/ratelimit/ratelimit.go:96-98 | a client is admitted exactly if its bucket, refilled at the rate up to the burst, or full if new, holds a token, and gives that token up |
| RateLimit.CleanupKeepsExactly | internal/ratelimit/ratelimit.go:70-75 | a sweep keeps exactly the clients seen within the ttl, the limit included |
| RateLimit.SweptWereFull | internal/ratelimit/ratelimit.go:70-75 | under the ttl condition only full buckets are dropped |
| RateLimit.EvictionUnobservable | internal/ratelimit/ratelimit.go:63-78 | sweeps at any times change no verdict under the ttl condition |
| RateLimit.AdmissionBound | internal/ratelimit/ratelimit.go:44-60 | at most burst + rate * T admissions in any window of length T, across evictions |
| RateLimit.SweepDoublesBurst | internal/ratelimit/ratelimit.go:70-75 | otherwise a sweep in the gap admits the burst twice |
| RateLimit.EvictionUnobservableExactly | internal/ratelimit/ratelimit.go:63-78 | eviction is unobservable if and only if rate * ttl is at least the burst |
| RateLimit.AdmissionBoundExactly | internal/ratelimit/ratelimit.go:63-78 | the admission bound survives eviction if and only if rate * ttl is at least the burst |
| RateLimiter.TokenBucket.Allow | internal/ratelimit/ratelimit.go:98 | the bucket object moves as the bucket value does |
| RateLimiter.RateLimiter.GetLimiter | internal/ratelimit/ratelimit.go:44-60 | the table of objects moves as the table value does, without sharing objects between clients |
| RateLimiter.RateLimiter.AllowOn | internal/ratelimit/ratelimit.go:98 | allowing on one client's bucket touches no other client |
| RateLimiter.RateLimiter.Serve | internal/ratelimit/ratelimit.go:96-98 | one request through the objects is one request on the values |
| RateLimiter.RateLimiter.Cleanup | internal/ratelimit/ratelimit.go:63-78 | the deleting loop keeps exactly the clients seen within the ttl |
| Endpoints.MatchMeansPrefix | internal/ratelimit/ratelimit.go:191-195 | a wildcard matches the extensions of its stem, other patterns themselves |
| Endpoints.MatchesExactly | internal/ratelimit/ratelimit.go:191-195 | a pattern matches itself, and if it ends in a star whatever begins with the rest of it |
| Endpoints.OverlapIsSharedPath | internal/ratelimit/ratelimit.go:191-195 | some path matches both patterns exactly when one stem extends a wildcard's stem |
| Endpoints.PerEndpointLimiter.constructor | internal/ratelimit/ratelimit.go:126-131 | no patterns at first, and a default limiter with a ttl of ten minutes |
| Endpoints.PerEndpointLimiter.SetEndpointRate | internal/ratelimit/ratelimit.go:134-138 | a pattern set again starts with an empty limiter, other patterns keep theirs |
| Endpoints.PerEndpointLimiter.Choose | internal/ratelimit/ratelimit.go:143-156 | some matching limiter, the default when none matches, and a fixed one when patterns do not overlap |

## Left out

- cmd/main.go, JWT, registration, login, CORS, metrics, logging, Swagger: wiring and library plumbing.
- HTTP and JSON decoding in the handlers: an early refusal of a handler is any 4xx without a ledger call; a request that passes its checks carries a parsed amount.
- Entry descriptions, row timestamps and account owners: no operation in scope depends on them, beyond an early 4xx.
- Text of amounts: `ValidatePositiveAmount` starts from what the decimal library makes of it.
- Store.Store.ExecTx: runs alone on its tables; other calls between its queries and attempts are the subject of module Concurrency, of which it is one call, as ExecTxIsACall shows.
- Overlapping requests with one digest: only the finality of stored responses and faithful hits hold there.
- What the database does about a deadlock: it fails one of the calls, which is a Break here; only 40001 is retried.
- Pagination of entries: ordering by creation time alone is not a total order.
- A request between getLimiter and Allow when its client is evicted: the two are one step here.
- Client identification and headers of the limiter middleware.
- Informational 1xx statuses of handlers: not final, and never set by the handlers here.
- The bounds of the Go int and of the ticker: attempts and times are unbounded, a sweep may come at any time.
