# Models of the wispace bots' protocols

The wispace bots let learners move study sessions, chat with a tutor and link
their accounts from several chat platforms. This project models the protocols
and algorithms at the centre of that in Dafny and proves what they are relied on
for. `dafny verify dfyconfig.toml` checks everything.

| file | what it models |
|---|---|
| `RescheduleStore.dfy` | the single-slot store of staged reschedules, with claim leases |
| `RescheduleProtocol.dfy` | stage, confirm, cancel and crash recovery as interleaved steps over that store, the attempt records, the budget and the calendar |
| `RescheduleSafety.dfy`, `RescheduleBudget.dfy` | the invariant of that protocol and its accounts, step by step |
| `RescheduleClaims.dfy` | what recovery can rely on between its look-up and its re-arming |
| `RescheduleTheorems.dfy` | what follows for every reachable state |
| `RescheduleAnswers.dfy`, `ApprovalTokens.dfy` | which answer a confirmation gets and what becomes of its row; which texts are approval tokens |
| `RescheduleItinerary.dfy` | which ports a confirmation asks, and in which order |
| `RescheduleHistory.dfy` | that every write was staged as written, that the books are true, and that what is gone stays gone |
| `RescheduleRecovery.dfy` | that every accepted request can be written, and that each condition on recovery is needed |
| `RescheduleNotify.dfy` | the attempt record, and how an outcome marks it |
| `NotifyRuns.dfy`, `NotifyBounds.dfy` | taps and cron runs that report on one confirmation message, await by await: when it is sent again, and how often |
| `DebounceQueue.dfy` | the per-user debounce queue |
| `DebounceSimple.dfy` | its simplest form, and that the queue is exactly that |
| `ChatPipeline.dfy` | one flush of the chat pipeline, and the capping of the learner's text |
| `OutboundLimiter.dfy` | the outbound rate limiter in memory and in Redis |
| `OutboundSetback.dfy` | how far back its clock may go |
| `AccountLink.dfy` | link completion and reconcile threads over one store of verified intents |
| `LinkReconcile.dfy` | the reconcile batch, record by record |
| `ClassifierCircuit.dfy` | the circuit breaker of the input classifier |
| `Clarification.dfy` | the clarification state machine |
| `Paging.dfy` | the walk over keyset pages |
| `ChatHistory.dfy` | bounded chat history in memory and in Redis |
| `Ipv6Text.dfy`, `Ipv6Numbers.dfy`, `Ipv6Forms.dfy` | the IPv6 text parser, and exactly which texts it reads |
| `Ipv6Spelling.dfy` | that an address written from its numbers is read as these numbers |
| `Prelude.dfy`, `JsText.dfy` | options, small set facts, JavaScript string operations |

## How the code is modelled

- Code that awaits is cut at its awaits. Each segment, and each port call, is one
  atomic step; the environment picks its result and the next thread to move. A
  port call may fail before its effect or after it. Theorems quantify over all
  runs of such steps.
- Objects that change in place are classes. Each method is proved against a
  function on values, and the properties are proved of those functions over all
  runs.
- A `try` block is followed case by case: what each collaborator does is one
  value, and the theorems hold for all of them.
- Clocks, random ids and the answers of ports are parameters. Time is whole
  milliseconds. Strings are compared, trimmed, split and joined as JavaScript
  does; an empty optional string counts as absent wherever the code tests it for
  truth (`Prelude.Given`).

What is assumed of the environment:

- Reschedule: nonces and lease tokens are fresh, and a calendar write that throws
  did not commit. Recovery lists a row, looks its attempt up and touches the row
  in three steps, among which anything may happen, and is held to five conditions
  (`Disciplined`): an attempt store is wired; the look-up is answered; it asks
  under the external id the request was confirmed by; the call that claimed the
  row is over before the look-up; and a row still claimed when it is touched is
  under the lease it was listed under. Each is needed (`RescheduleRecovery`).
- Account linking: intent generations are fresh, and an upsert that reports a
  conflict changed nothing.
- Notifications: a confirmed record is not cleared or begun anew
  (`CommittedRecordIsDurable`). That cron runs exclude each other, for which the
  lock is optional, and that a mark raises the count it finds, which the SQL store
  does not do, are parameters: each theorem says which it needs, and
  `CronSendsAreBoundedIff` and `CronNeverAbandonsIff` that it does.
- Outbound limiter: the clock never goes back, in Redis the server's own, which the
  script asks for (`MemoryIsSafeIff` and `RedisIsSafeIff` say how far back it may
  go), and random ids do not repeat.
- Classifier: the clock never goes back, an admitted call settles within
  `timeoutMs`, and nothing between admission and the provider call throws.
- Debounce queue: callbacks do not throw, and the configured size, if positive, is
  a whole number.

## Where the code and its descriptions differ

- The recovery cron's comment says a row is re-armed only when no attempt record
  exists. A look-up that fails is treated as "no record", and so is a missing
  attempt store; the look-up and the re-arming are separate awaits, and the
  re-arming checks the status of the row but not its lease. The shipped cron never
  meets the third of the five conditions: the rows it lists carry the storage key
  (`platform:id`) as their external id, while attempts are recorded under the id
  alone (`StorageKeyIsAnotherId`). So `AtMostOneWritePerNonce` covers no re-arming
  by the cron as shipped; it covers every run without one, and every run of a cron
  that keeps the conditions. `FailedLookupWritesTwice`, `NoAttemptStoreWritesTwice`,
  `OtherIdWritesTwice`, `EarlyLookupWritesTwice`, `LiveHolderWritesTwice` and
  `OverlappingRecoveriesWriteTwice` give, in every wiring and for every accepted
  request, runs that keep all but one of the five conditions and write the
  calendar twice.
- A confirmation that was sent, or may have been, is promised not to be repeated. The
  cron delivers from the list it made, without looking again, and any report of a
  failure that found attempts to spare defers the record, whatever was marked
  since its look-up. `SentAgainIff` gives the exact condition for a message marked
  as sent to be sent again: the cron had listed it before that mark, or such a
  failure, a tap's or a cron's, was the last mark before the cron listed it.
  `ListedThenSentIsSentAgain` is a run in which nothing failed,
  `StaleDeliveryReopens` one in which the cron's own failure reopens the record,
  `OverlappingTapsDefer` one in which two failing taps defer a record that one
  after the other they would abandon, and `FailedTapReopensASentRecord` one with a
  single failing tap.
- The SQL store's comment says the count is raised in the statement that marks. It is
  read before, in a statement of its own, so a slow report sets it back:
  `SlowTapsUndoTheCount` gives runs with any number of sends, and
  `CronSendsAreBoundedByTaps` the bound that is left.
- The counters of a reconcile batch need not sum to its records: an outcome
  observer that throws after its record was counted counts it again as failed.
  `RunBatch` proves that they sum exactly when that does not happen.
- A pipeline turn may both refund its slot and mark it delivered: when only part of
  the reply went out and the bookkeeping after it fails. It may do neither: when
  the turn fails before its delivery is known and classifying that error throws
  too. `Flush` proves these are the only two cases, and `AdapterNeverSplits` that
  the shipped adapter rules the first one out.
- A half-open probe is alone in flight exactly when the call deadline is shorter
  than the thirty seconds the circuit stays open; the classifier itself does not
  enforce that.
- Accepting a clarification choice does not take down the failure mark of an
  earlier delivery, so the choice's own event is then not recognised as a replay.
  `ReplayOfChoiceNeedsNoEarlierFailure` gives the exact condition.
- A clarification may live for up to a day and each answer renews that, while the
  Redis store reads back only states that expire within a day of their beginning.
  `RefreshedStateReadsBackWithinADay` gives the exact condition for every
  lifecycle, and `LateChoiceCannotBeReadBack` one that is lost.
- The in-memory history and the Redis script agree for every limit but 0 and -1.
- A confirmation the cron failed to deliver five times is not marked abandoned while
  cron runs exclude each other; it stays deferred and is never due again
  (`CronNeverAbandons`).
- The IPv6 parser's comments say a dotted quad needs `::` before it and that
  invalid text is refused. `AcceptedIff` says exactly which texts are accepted:
  the forms of section 2.2 of RFC 4291, and those with something relaxed. A
  quad is read after any one to six groups (`QuadNeedsNoCompression`), and a `::`
  right before it may be a second one or stand for nothing; the first and the last
  group of a text without a quad, and the one after its `::`, may be empty
  (`LeadingColonIsRead`); a group may have more than four digits, blanks, a sign
  or `0x` before them and any text after them (`GroupReadsIff`), which is ignored
  (`FullAddressIgnoresText`).
- The debounce queue sweeps for stale idle entries. There are none: an entry is forgotten
  as soon as it has neither text nor a flush under way (`NoEntryIsIdle`).
- The debounce queue's key of a batch is the key of the last keyed text accepted for
  it. That need not be its last text, nor any text of the batch: the cap may have
  dropped it (`RunKeysBatches`, `DroppedTextLendsItsKey`).

## Model

| member | source | states |
|---|---|---|
| `RescheduleStore.PruneRemovesExactlyExpired` | packages/reschedule-confirm/src/reschedule-store.port.ts:216-223 | pruning removes exactly the unclaimed expired rows it visits; a claimed row never expires |
| `RescheduleStore.PruneLeavesTheUnexpired` | packages/reschedule-confirm/src/reschedule-store.port.ts:216-223 | what is left is exactly the rows that are claimed or not yet due, in their old order |
| `RescheduleStore.SaveIsFenced` | packages/reschedule-confirm/src/reschedule-store.port.ts:94-116 | a save never touches a claimed row, succeeds exactly when the slot is free to take or a row can make room, holds the new record then, changes no other row's content, and keeps the store within its cap |
| `RescheduleStore.SaveOverwrites` | packages/reschedule-confirm/src/reschedule-store.port.ts:94-116 | a save to a slot in use is refused if the row is claimed and otherwise replaces it in its place |
| `RescheduleStore.SaveAppends` | packages/reschedule-confirm/src/reschedule-store.port.ts:102-116 | a save with room for it, under 10 000 rows or once the expired are gone, drops the expired rows and adds the new one last |
| `RescheduleStore.SaveEvictsTheOldest` | packages/reschedule-confirm/src/reschedule-store.port.ts:102-116 | a save to a full store without expired rows evicts the oldest unclaimed row, and is refused exactly if every row is claimed |
| `RescheduleStore.ClaimIsExclusive` | packages/reschedule-confirm/src/reschedule-store.port.ts:118-153 | a claim takes only an unclaimed, unexpired row with matching user and binding, and changes only its lease and flag; a miss removes no claimed row |
| `RescheduleStore.ClaimIsExact` | packages/reschedule-confirm/src/reschedule-store.port.ts:118-153 | a claim succeeds exactly for an unclaimed, unexpired row of that user whose platform, mapping version, hashes and nonce match wherever they were asked for; what it hands out and what the store holds then |
| `RescheduleStore.LeaseOperationsAreFenced` | packages/reschedule-confirm/src/reschedule-store.port.ts:155-195 | reverting and cancelling a claimed row do nothing without its own lease token, and exactly the one change with it |
| `RescheduleStore.ReadersAndCancellersAreFenced` | packages/reschedule-confirm/src/reschedule-store.port.ts:165-214 | a user's cancel or a state query never removes or changes a claimed row; the query reports `none`, `processing` and `expired` each exactly for its rows, and drops a row exactly when it reports it expired |
| `RescheduleStore.CancelIsExact` | packages/reschedule-confirm/src/reschedule-store.port.ts:165-186 | a cancel succeeds exactly for an unclaimed, unexpired row with the nonce named, removes that row and no other, and clears an expired one away |
| `RescheduleStore.QueryIsExact` | packages/reschedule-confirm/src/reschedule-store.port.ts:203-214 | a query reports `pending` exactly for an unclaimed, unexpired row and removes exactly the expired row it finds |
| `RescheduleStore.MemoryRescheduleStore.constructor` | packages/reschedule-confirm/src/reschedule-store.port.ts:86-92 | the store starts empty and valid |
| `RescheduleStore.MemoryRescheduleStore.Prune` | packages/reschedule-confirm/src/reschedule-store.port.ts:216-223 | the in-place loop does what `Pruned` says |
| `RescheduleStore.MemoryRescheduleStore.SavePending` | packages/reschedule-confirm/src/reschedule-store.port.ts:94-116 | the in-place save does what `Save` says and keeps the store within its cap |
| `RescheduleStore.MemoryRescheduleStore.Take` | packages/reschedule-confirm/src/reschedule-store.port.ts:118-153 | the in-place claim does what `TakeValid` says |
| `RescheduleStore.MemoryRescheduleStore.Revert` | packages/reschedule-confirm/src/reschedule-store.port.ts:155-163 | the in-place revert does what `RevertToPending` says |
| `RescheduleStore.MemoryRescheduleStore.Cancel` | packages/reschedule-confirm/src/reschedule-store.port.ts:165-186 | the in-place cancel does what `CancelPending` says |
| `RescheduleStore.MemoryRescheduleStore.ReleaseClaimed` | packages/reschedule-confirm/src/reschedule-store.port.ts:188-195 | the in-place removal does what `CancelClaimed` says |
| `RescheduleStore.MemoryRescheduleStore.PendingStateOf` | packages/reschedule-confirm/src/reschedule-store.port.ts:203-214 | the query does what `GetPendingState` says, including dropping an expired row |
| `RescheduleProtocol.ScopeFailureReason` | packages/reschedule-confirm/src/reschedule-confirm.service.ts:88-103 | there is no failure exactly when both ids are equal and proper user ids, and a mismatch exactly when they are proper and differ |
| `RescheduleTheorems.RunKeepsGood` | packages/reschedule-confirm/src/reschedule-confirm.service.ts:455-689 | every step of stage, confirm, cancel, crash and of a disciplined recovery, listing, look-up and touch apart, with any port failing, keeps the protocol's invariant and accounts |
| `RescheduleTheorems.AtMostOneWritePerNonce` | packages/reschedule-confirm/src/reschedule-confirm.service.ts:596-645 | in every reachable state the calendar write has committed at most once per approval nonce |
| `RescheduleTheorems.NeverRearmedAfterCommit` | packages/reschedule-confirm/src/reschedule-confirm.service.ts:594-689 | a row whose write committed is never pending again |
| `RescheduleTheorems.ConfirmedMeansCommitted` | packages/reschedule-confirm/src/reschedule-confirm.service.ts:481-504 | `confirmed: true` is answered only if a write under the caller's token committed, and with that write's label; a replay repeats the label |
| `RescheduleTheorems.WritesAreOwnershipVerified` | packages/reschedule-confirm/src/reschedule-confirm.service.ts:332-401 | every committed write's user and calendar entry are the ones its own stage call verified as owned |
| `RescheduleTheorems.OneLiveConfirmPerExternalId` | packages/reschedule-confirm/src/reschedule-store.port.ts:118-153 | at most one confirmation per external id is between claim and release, and it holds the row's lease |
| `RescheduleTheorems.ClaimedRowsAreFenced` | packages/reschedule-confirm/src/reschedule-store.port.ts:94-223 | no step changes a claimed row but its holder's own and recovery of that row |
| `RescheduleTheorems.AbandonedRowStays` | packages/reschedule-confirm/src/adapters/reschedule-recovery-cron.service.ts:100-130 | a row whose claiming call is over stays as it is, under its lease, through every step but a recovery's touch of it, and its call stays over |
| `RescheduleClaims.StepKeepsRecoveries` | packages/reschedule-confirm/src/adapters/reschedule-recovery-cron.service.ts:104-128 | what a recovery has looked up stays true until it touches the row, whatever steps come between |
| `RescheduleTheorems.CommittedRecordIsDurable` | packages/reschedule-confirm/src/reschedule-attempt.port.ts:150-198 | a confirmed attempt record is never overwritten, cleared or relabelled by any step |
| `RescheduleTheorems.BudgetCoversWrites` | packages/reschedule-confirm/src/reschedule-confirm.service.ts:548-591 | with the consume hook wired, a user's consumption minus refunds is never below that user's committed writes |
| `RescheduleTheorems.ReturnedCallKeepsItsDue` | packages/reschedule-confirm/src/reschedule-confirm.service.ts:646-688 | with both hooks wired, a confirm that returns has kept one unit exactly when its write committed or it was refused over an attempt in doubt, and none otherwise |
| `RescheduleAnswers.EveryCallFits` | packages/reschedule-confirm/src/reschedule-confirm.service.ts:455-689 | in every reachable state, recovery held to nothing, each call is at the await that what its own earlier awaits were told leads to |
| `RescheduleAnswers.AnswersAreDue` | packages/reschedule-confirm/src/reschedule-confirm.service.ts:455-689 | a call that returns gives the answer due to what its own awaits were told: the refusals for a malformed token, an expired or missing request, a request being processed or in doubt, a spent budget, a foreign entry, an unavailable calendar; the replayed or new label |
| `RescheduleAnswers.RefusalsAreExplained` | packages/reschedule-confirm/src/reschedule-confirm.service.ts:646-688 | it answers scope-blocked exactly if its write was refused as another learner's, unavailable exactly if its write failed otherwise, and budget-exceeded exactly if it was declined |
| `RescheduleAnswers.RowAfterRelease` | packages/reschedule-confirm/src/reschedule-confirm.service.ts:667-687 | a row given up is deleted exactly if the write was refused as another learner's, and otherwise pending again for ten minutes |
| `RescheduleAnswers.RowAfterCleanup` | packages/reschedule-confirm/src/reschedule-confirm.service.ts:623-632 | a row whose write committed is deleted |
| `RescheduleItinerary.PortsAreAskedInOrder` | packages/reschedule-confirm/src/reschedule-confirm.service.ts:455-689 | over every run a call has asked exactly the ports that lead to where it is, in the source's order and each once, by what is wired and what it was told; a call that returned has asked all that were due and no more |
| `RescheduleHistory.StageAcceptsIff` | packages/reschedule-confirm/src/reschedule-confirm.service.ts:332-401 | a request is staged exactly for an entry that is the first with its id and the learner's own, with the hashes filled in and a new nonce |
| `RescheduleHistory.TakeIsExact` | packages/reschedule-confirm/src/reschedule-confirm.service.ts:481-504 | a confirm gets its row exactly if it waits there unexpired for that learner under the platform, mapping and hashes asked for and under the call's own token, or else the nonce asked for |
| `RescheduleHistory.EveryWriteWasStaged` | packages/reschedule-confirm/src/reschedule-confirm.service.ts:332-645 | over every run, whatever recovery does, each write is of a request that a `stage` call of the run verified as the learner's own: same learner, entry and target |
| `RescheduleHistory.RowsChangeExactly` | packages/reschedule-confirm/src/reschedule-store.port.ts:155-214 | a look at the state takes out exactly an expired row, a cancel exactly the row it names, and a call done with its row changes it only under its own lease, unless the port failed before |
| `RescheduleHistory.BooksAreTrue` | packages/reschedule-confirm/src/reschedule-confirm.service.ts:548-689 | over every run the writes, charges, refunds, attempt records and staged requests are what the steps put there, in order |
| `RescheduleHistory.AccountsAreTrue` | packages/reschedule-confirm/src/reschedule-confirm.service.ts:548-689 | a call's account is its charges that landed less its refunds, and it has written exactly if it committed a write |
| `RescheduleHistory.GoneIsNeverWritten` | packages/reschedule-confirm/src/reschedule-store.port.ts:94-223 | a staged request that is no longer in the store, for whatever reason, is never written afterwards |
| `RescheduleHistory.CancelledIsNeverWritten` | packages/reschedule-confirm/src/reschedule-store.port.ts:165-186 | a request its learner cancelled was not written and never will be |
| `ApprovalTokens.TokensAreUuids` | packages/reschedule-confirm/src/reschedule-confirm.service.ts:115-120 | a text passes as an approval token exactly if it is a version-4 UUID, in either case |
| `RescheduleRecovery.StagedRequestCanBeWritten` | packages/reschedule-confirm/src/reschedule-confirm.service.ts:296-645 | in every wiring, every request a stage call accepts can be tapped with its own token and written once, with a positive answer and the row gone |
| `RescheduleRecovery.StoredRequestIsWritten` | packages/reschedule-confirm/src/reschedule-confirm.service.ts:569-606 | from any state, a stored request nobody holds and with no attempt in doubt can be written, whatever was written before: confirm does not refuse over a confirmed record |
| `RescheduleRecovery.AbandonedRowIsRecovered` | packages/reschedule-confirm/src/adapters/reschedule-recovery-cron.service.ts:100-130 | from any state a disciplined recovery of a row whose call is over takes it out exactly if an attempt was recorded for it, and otherwise makes it pending again for ten minutes |
| `RescheduleRecovery.FailedLookupWritesTwice` | packages/reschedule-confirm/src/adapters/reschedule-recovery-cron.service.ts:104-128 | in every wiring with an attempt store and for every accepted request, a run that keeps all conditions but that the look-up is answered writes the nonce twice |
| `RescheduleRecovery.NoAttemptStoreWritesTwice` | packages/reschedule-confirm/src/adapters/reschedule-recovery-cron.service.ts:104-128 | the same in every wiring without an attempt store |
| `RescheduleRecovery.OtherIdWritesTwice` | packages/reschedule-confirm/src/adapters/typeorm-reschedule-store.ts:220-238 | the same when the look-up asks under any other id than the request's own |
| `RescheduleRecovery.StorageKeyIsAnotherId` | packages/reschedule-confirm/src/adapters/typeorm-reschedule-store.ts:309-311 | a look-up under the storage key never asks under the row's own id |
| `RescheduleRecovery.EarlyLookupWritesTwice` | packages/reschedule-confirm/src/adapters/reschedule-recovery-cron.service.ts:104-128 | the same when the look-up comes before the holder's attempt and the re-arming after its return |
| `RescheduleRecovery.LiveHolderWritesTwice` | packages/reschedule-confirm/src/adapters/reschedule-recovery-cron.service.ts:104-128 | the same when the claiming call is still going on |
| `RescheduleRecovery.OverlappingRecoveriesWriteTwice` | packages/reschedule-confirm/src/adapters/typeorm-reschedule-store.ts:240-255 | the same when a second recovery re-arms the row under a lease it did not list |
| `RescheduleNotify.MemoryRescheduleAttemptStore.constructor` | packages/reschedule-confirm/src/reschedule-attempt.port.ts:150-153 | the store starts empty |
| `RescheduleNotify.MemoryRescheduleAttemptStore.BeginAttempt` | packages/reschedule-confirm/src/reschedule-attempt.port.ts:159-172 | the key holds a fresh attempt and no other record moves |
| `RescheduleNotify.MemoryRescheduleAttemptStore.ConfirmAttempt` | packages/reschedule-confirm/src/reschedule-attempt.port.ts:174-186 | false exactly when there is no attempt; otherwise only status and label change |
| `RescheduleNotify.MemoryRescheduleAttemptStore.FindAttempt` | packages/reschedule-confirm/src/reschedule-attempt.port.ts:193-198 | the record under the key, if there is one |
| `RescheduleNotify.MemoryRescheduleAttemptStore.MarkSent` | packages/reschedule-confirm/src/reschedule-attempt.port.ts:216-234 | only this record's status, count and delay change; the count goes up by one |
| `RescheduleNotify.MemoryRescheduleAttemptStore.ApplyNotificationOutcome` | packages/reschedule-confirm/src/reschedule-attempt.port.ts:124-143 | what follows the look-up, whenever that was: nothing without a confirmed record found; otherwise the mark the found record calls for, on the record as it is by then |
| `NotifyRuns.RecordFollowsReports` | packages/reschedule-confirm/src/reschedule-attempt.port.ts:116-144 | over every interleaving of taps and cron runs, list, delivery, look-up, count and mark apart and each able to stop for good: the record is what its last mark made it, every mark goes by the count at its own look-up and is numbered by the count at its own reading, and every cron listed the record when it was due |
| `NotifyRuns.EveryMarkCounts` | packages/reschedule-confirm/src/reschedule-attempt.port.ts:216-257 | where the mark itself raises the count, the count is the number of marks but for abandonments |
| `NotifyRuns.SentRecordReopensIff` | packages/reschedule-confirm/src/reschedule-attempt.port.ts:116-144 | over every such run, a message not deferred is deferred again exactly when the last mark was a failure's whose look-up had found fewer than five attempts |
| `NotifyRuns.ListedIff` | packages/reschedule-confirm/src/adapters/reschedule-recovery-cron.service.ts:141-172 | a cron may deliver exactly if it listed the record and has done nothing since; nothing marked in between takes it off the list |
| `NotifyRuns.SentAgainIff` | packages/reschedule-confirm/src/adapters/reschedule-recovery-cron.service.ts:141-172 | after a mark of sent or ambiguous, the cron's next send is possible exactly if it had listed the record before that mark, or such a failure was the last mark before it listed, or lists, the record |
| `NotifyRuns.ListedThenSentIsSentAgain` | packages/reschedule-confirm/src/adapters/reschedule-recovery-cron.service.ts:146-156 | for every listed record: a tap's reply is sent and marked, nothing fails, and the cron still delivers |
| `NotifyRuns.StaleDeliveryReopens` | packages/reschedule-confirm/src/adapters/reschedule-recovery-cron.service.ts:150-163 | if that delivery fails, the sent record is due again exactly when it was listed with at most two attempts and the delay is over |
| `NotifyRuns.OverlappingTapsDefer` | packages/reschedule-confirm/src/reschedule-attempt.port.ts:123-143 | two failing taps that both look up a record with four attempts leave it deferred, with six |
| `NotifyRuns.SeparateTapsAbandon` | packages/reschedule-confirm/src/reschedule-attempt.port.ts:123-143 | one after the other, they leave it abandoned |
| `NotifyRuns.FailedTapReopensASentRecord` | packages/reschedule-confirm/src/reschedule-attempt.port.ts:116-144 | a failed tap and then a cron's listing and send is a run exactly when at most three attempts had been used and the delay has passed |
| `NotifyBounds.EverySendIsAccounted` | packages/reschedule-confirm/src/adapters/reschedule-recovery-cron.service.ts:150-171 | in every run each message the cron sent was reported, was lost, or is still to be reported |
| `NotifyBounds.CronSendsAreBounded` | packages/reschedule-confirm/src/reschedule-attempt.port.ts:95-144 | with cron runs that exclude each other and marks that raise the count, the cron repeats the message at most four times plus once per lost report, whatever the taps do |
| `NotifyBounds.BoundIsTight` | packages/reschedule-confirm/src/reschedule-attempt.port.ts:95-144 | the bound is met: for every number of lost reports there is a run with four sends more than that |
| `NotifyBounds.CronSendsAreBoundedByTaps` | packages/reschedule-confirm/src/adapters/typeorm-reschedule-attempt-store.ts:164-187 | with a count that is read before it is written, at most four times per report of a tap plus once per lost report |
| `NotifyBounds.OverlappingCronsSendWithoutBound` | packages/reschedule-confirm/src/adapters/reschedule-recovery-cron.service.ts:80-86 | without the lock, a run with any number of sends and no report lost |
| `NotifyBounds.SlowTapsUndoTheCount` | packages/reschedule-confirm/src/adapters/typeorm-reschedule-attempt-store.ts:164-187 | with a count that is read before it is written, a run with any number of sends, one cron at a time and no report lost |
| `NotifyBounds.CronSendsAreBoundedIff` | packages/reschedule-confirm/src/reschedule-attempt.port.ts:95-144 | the bound of four holds of every run exactly if cron runs exclude each other and a mark raises the count |
| `NotifyBounds.CronNeverAbandons` | packages/reschedule-confirm/src/reschedule-attempt.port.ts:98-144 | with cron runs that exclude each other, the cron alone never reaches `abandoned`; a record with all attempts used up is never due again |
| `NotifyBounds.CronNeverAbandonsIff` | packages/reschedule-confirm/src/adapters/reschedule-recovery-cron.service.ts:80-86 | that holds exactly if cron runs exclude each other |
| `DebounceQueue.RunConservesInOrder` | packages/chat-queue-core/src/debounce-chat-queue.ts:64-330 | over every run, what was neither dropped by the cap nor cleared is, in arrival order, the batches, then `texts`, then what waits behind a flush; every cap drop is reported |
| `DebounceQueue.RunNeverLosesWakeup` | packages/chat-queue-core/src/debounce-chat-queue.ts:131-330 | between any two segments buffered text has an armed timer, waiting text has a flush under way, `processing` means `texts` is empty, and both buffers are within the cap |
| `DebounceQueue.RunFlushesOneAtATime` | packages/chat-queue-core/src/debounce-chat-queue.ts:266-330 | at most one flush of a user has neither ended nor timed out, exactly while `processing` |
| `DebounceQueue.RunKeysBatches` | packages/chat-queue-core/src/debounce-chat-queue.ts:64-330 | over every run each batch stands for its own stretch of accepted messages, holds the newest of them, and carries the last key given in the stretch, dropped messages included |
| `DebounceQueue.RunKeysBatchesByLastText` | packages/chat-queue-core/src/debounce-chat-queue.ts:64-129 | that is the key of its last text exactly when that text is keyed or no message of the stretch was |
| `DebounceQueue.DroppedTextLendsItsKey` | packages/chat-queue-core/src/debounce-chat-queue.ts:93-129 | with room for one text, an unkeyed text goes out under the key of the dropped one before it |
| `DebounceSimple.RunIsSimple` | packages/chat-queue-core/src/debounce-chat-queue.ts:64-351 | over every run of arrivals, timers, flushes, clears, drains and sweeps the entry, the batches and the drops are exactly those of the simple form: what arrived, how much of it was handed over or cleared, and whether a flush is under way; and the same events are possible |
| `DebounceSimple.NoEntryIsIdle` | packages/chat-queue-core/src/debounce-chat-queue.ts:337-351 | an entry always has text or a flush under way, so the sweep for stale entries changes nothing |
| `DebounceQueue.DebounceChatQueue.constructor` | packages/chat-queue-core/src/debounce-chat-queue.ts:43-62 | the queue starts empty, with the configured cap if that is positive and 20 otherwise |
| `DebounceQueue.DebounceChatQueue.Enqueue` | packages/chat-queue-core/src/debounce-chat-queue.ts:64-129 | only this user's entry moves, by `EnqueueStep`; blank text and shutdown change nothing; the drops reported are the drops made |
| `DebounceQueue.DebounceChatQueue.Flush` | packages/chat-queue-core/src/debounce-chat-queue.ts:266-300 | hands over exactly the buffered texts under their key and marks the entry in flight, by `FlushStep` |
| `DebounceQueue.DebounceChatQueue.Fire` | packages/chat-queue-core/src/debounce-chat-queue.ts:248-264 | the timer's callback is `FireStep` |
| `DebounceQueue.DebounceChatQueue.FlushNow` | packages/chat-queue-core/src/debounce-chat-queue.ts:131-139 | the immediate flush is `FlushNowStep` |
| `DebounceQueue.DebounceChatQueue.Settle` | packages/chat-queue-core/src/debounce-chat-queue.ts:307-330 | the end of a flush promotes what waited, re-arms, or forgets the entry, by `SettleStep` |
| `DebounceQueue.DebounceChatQueue.Clear` | packages/chat-queue-core/src/debounce-chat-queue.ts:142-156 | everything not handed over is discarded and an entry in flight is kept, by `ClearStep` |
| `DebounceQueue.DebounceChatQueue.DrainSweep` | packages/chat-queue-core/src/debounce-chat-queue.ts:159-172 | one drain round starts a flush for every idle user with text; no text stays buffered |
| `DebounceQueue.DebounceChatQueue.DrainScan` | packages/chat-queue-core/src/debounce-chat-queue.ts:174-200 | work is left exactly when some entry is in flight or holds text; otherwise no timer stays armed |
| `DebounceQueue.DebounceChatQueue.EvictStale` | packages/chat-queue-core/src/debounce-chat-queue.ts:337-351 | the sweep forgets exactly the idle, unbuffered, untimed, old entries |
| `ChatPipeline.Flush` | packages/chat-pipeline/src/chat-pipeline.ts:74-312 | for every combination of throws: which ports are asked before the verdict and in which order; at most one refund, only of a taken slot; exactly one of refund and mark but for the two stated cases; history only after the mark, completion only after both; the error hook exactly once for an unconfirmed delivery or an error before one; and the exact condition of each outcome |
| `ChatPipeline.Converse` | packages/chat-pipeline/src/chat-pipeline.ts:94-179 | the exact condition of getting a verdict or a rejection, before any settling call; history, agent and send are asked exactly as far as nothing threw before |
| `ChatPipeline.Settle` | packages/chat-pipeline/src/chat-pipeline.ts:181-282 | which settling calls and error reports follow each verdict, in which order, and with which outcome |
| `ChatPipeline.AdapterNeverSplits` | packages/chat-agent/src/chat-pipeline-adapters.ts:154-160 | behind the shipped adapter a send is never partial nor both delivered and rate limited |
| `ChatPipeline.AdapterDeliversIff` | packages/chat-agent/src/chat-pipeline-adapters.ts:154-160 | the adapter counts a send as delivered exactly if it was sent or nothing was reported, and as rate limited exactly if that was reported |
| `ChatPipeline.CapUserTextParts` | packages/chat-pipeline/src/chat-pipeline.ts:16-38 | the capped parts join to the joined input cut to the cap; all but the last are whole and the last is a beginning |
| `ChatPipeline.AgentText` | packages/chat-pipeline/src/chat-pipeline.ts:75-79 | the agent's parts join to exactly the merged text unless others were supplied, and never exceed it |
| `OutboundLimiter.EveryWindowIsBounded` | packages/bot-common/src/redis/outbound-rate-limiter.ts:41-63 | in either form, every half-open window of `windowMs` holds at most `maxMessages` admitted units |
| `OutboundLimiter.FormsAgree` | packages/bot-common/src/redis/outbound-rate-limiter.ts:192-253 | over every sequence of calls both forms give the same verdicts with the same `remaining`, and those of the plain log rule |
| `OutboundLimiter.RemainingIsTheRoom` | packages/bot-common/src/redis/outbound-rate-limiter.ts:192-253 | in either form the `remaining` of a verdict is the cap less the units admitted in the window that ends with the call |
| `OutboundLimiter.ExpiryDropsNothingLive` | packages/bot-common/src/redis/outbound-rate-limiter.ts:51-62 | the key's expiry never takes a unit that still counts |
| `OutboundLimiter.TtlIsRoundedUp` | packages/bot-common/src/redis/outbound-rate-limiter.ts:51-62 | the key lives for the window rounded up to whole seconds and one second more |
| `OutboundLimiter.ClockGoingBackOverfills` | packages/bot-common/src/redis/outbound-rate-limiter.ts:226-253 | for every cap of at least two and every window, three calls with the clock going back by one fill a window with one unit more than the cap |
| `OutboundLimiter.AnyClockIsSafeIff` | packages/bot-common/src/redis/outbound-rate-limiter.ts:226-253 | the in-memory form keeps its bound for calls in any order of time exactly when the cap is below two (or the window empty) |
| `OutboundSetback.MemoryIsSafeIff` | packages/bot-common/src/redis/outbound-rate-limiter.ts:226-253 | it keeps it for every clock that goes back by at most `back` exactly when the cap is below two, the window empty or `back` nought |
| `OutboundSetback.RedisIsSafeIff` | packages/bot-common/src/redis/outbound-rate-limiter.ts:41-63 | the Redis form does exactly when the cap, the window or `back` is nought, or the cap is one and `back` within the time the key outlives the window |
| `OutboundSetback.BackByOneOverfills` | packages/bot-common/src/redis/outbound-rate-limiter.ts:41-63 | for every cap of at least two, going back by one fills a window with one unit more than the cap |
| `OutboundSetback.LongSetbackOverfills` | packages/bot-common/src/redis/outbound-rate-limiter.ts:51-62 | for a cap of one, a refused call of long before makes the key expire early, and a window takes two units |
| `OutboundLimiter.RedisServer.AddUnits` | packages/bot-common/src/redis/outbound-rate-limiter.ts:58-60 | the loop adds one member per unit |
| `OutboundLimiter.RedisServer.Eval` | packages/bot-common/src/redis/outbound-rate-limiter.ts:41-63 | the script is `RedisStep` on its key and leaves other keys alone |
| `OutboundLimiter.OutboundRateLimiter.FromMemory` | packages/bot-common/src/redis/outbound-rate-limiter.ts:226-253 | the in-memory form is `MemoryStep` on its bucket and leaves other buckets alone |
| `OutboundLimiter.OutboundRateLimiter.Admit` | packages/bot-common/src/redis/outbound-rate-limiter.ts:137-224 | which form decides, with its verdict, and that only that form's bucket moves; an unreachable store lets the message through |
| `AccountLink.NoIntentIsLost` | packages/account-link-core/src/core/account-link.core.ts:203-268 | over every interleaving of completions, reconcile runs, stops and outside changes, a recorded intent is stored, or its mapping has been in force since, or a conflict or drop was decided, or a newer intent took its place |
| `AccountLink.IntentsAreConserved` | packages/account-link-core/src/core/account-link.core.ts:43-58 | each recorded intent is stored, superseded or consumed, and only one of these |
| `AccountLink.SideEffectComesFirst` | packages/account-link-core/src/core/account-link.core.ts:241-266 | a consumption after a commit means the mapping was in force, and, where the option of that thread kind asks for it, that the kind's side effect for the intent had succeeded |
| `AccountLink.RunKeepsInv` | packages/account-link-core/src/core/account-link.core.ts:387-479 | every step keeps the invariant behind these |
| `AccountLink.StoredIntentCanBeFinished` | packages/account-link-core/src/core/account-link.core.ts:387-479 | from any state one reconcile run finishes a stored intent that is younger than the maximum age and not blocked, with an upsert exactly if its mapping does not stand yet |
| `AccountLink.LinkCanBeCompleted` | packages/account-link-core/src/core/account-link.core.ts:203-268 | from any state a completion whose ports work leaves its mapping, its side effect and no intent |
| `AccountLink.HistoryIsTrue` | packages/account-link-core/src/core/account-link.core.ts:203-479 | an intent was dropped exactly if a run found it too old or blocked, in conflict exactly if an upsert given up on said so, linked, superseded, consumed or acted on exactly if a step did that |
| `AccountLink.DecidedAgainstIsConsumed` | packages/account-link-core/src/core/account-link.core.ts:443-516 | an intent decided against can be consumed next, and is gone then |
| `AccountLink.TriesAreCounted` | packages/account-link-core/src/core/account-link.core.ts:538-566 | over every run a thread tries to record, and to link, at most as often as its kind is configured to and at least once, and has exactly the unused tries left while it goes on |
| `AccountLink.FailedTryIsRepeated` | packages/account-link-core/src/core/account-link.core.ts:538-566 | a try that failed in passing is repeated exactly while the tries made are fewer than configured |
| `AccountLink.MappingMayGoAgain` | packages/account-link-core/src/core/account-link.core.ts:43-58 | a mapping once in force may be gone later, by an unlink or another link, without the intent counting as lost |
| `LinkReconcile.Retry` | packages/account-link-core/src/core/account-link.core.ts:538-566 | tries until an answer is final or the attempts are used up, never longer, at least once; every try before the last failed in passing, and the last one decides |
| `LinkReconcile.RevocationBlocksEarlierIntents` | packages/account-link-core/src/core/account-link.core.ts:485-503 | for every link state exactly which records are blocked: none without a state or with an active one, all if revoked, those not fresh if unknown or unlinked at an unknown time, those not fresh or verified by the time of the unlink otherwise; a later verification is never worse off, nor a fresher one |
| `LinkReconcile.AgeDecides` | packages/account-link-core/src/core/account-link.core.ts:419-475 | while nothing throws, an unblocked record without a mapping is linked by one upsert exactly if it is younger than the maximum age, and dropped untried otherwise; it is consumed either way |
| `LinkReconcile.LinkingIsExclusive` | packages/account-link-core/src/core/account-link.core.ts:443-475 | linking leaves the learner with that external id alone and changes nothing of other learners but that id |
| `LinkReconcile.TryRecord` | packages/account-link-core/src/core/account-link.core.ts:387-475 | an upsert exactly for fresh, unblocked records not yet mapped; the exact condition of each outcome; an intent is consumed only for a reason |
| `LinkReconcile.Link` | packages/account-link-core/src/core/account-link.core.ts:443-475 | the same for a record that reaches the upsert |
| `LinkReconcile.Finish` | packages/account-link-core/src/core/account-link.core.ts:392-417 | consumption and side effect in the order the option asks for; with the option, a failed side effect keeps the intent |
| `LinkReconcile.Drop` | packages/account-link-core/src/core/account-link.core.ts:505-516 | when a drop is counted, and that it is counted only after the intent was consumed |
| `LinkReconcile.RerunAfterCommit` | packages/account-link-core/src/core/account-link.core.ts:392-417 | after a commit, at whichever attempt, whose consume failed, a rerun makes no upsert and is `already_committed` exactly when nothing throws |
| `LinkReconcile.RunBatch` | packages/account-link-core/src/core/account-link.core.ts:351-483 | every record handled once, in order, each in one counter; the counters sum to `records` exactly when no observer throws after counting; when no result is returned |
| `ClassifierCircuit.ProbeIsAloneIffDeadlineIsShort` | packages/chat-agent/src/agent/llm-content-classifier.ts:58-192 | in every state of every run the half-open flag means exactly one call in flight, if and only if `timeoutMs` is below the cooldown |
| `ClassifierCircuit.LongDeadlineLetsTwoIn` | packages/chat-agent/src/agent/llm-content-classifier.ts:141-151 | otherwise a run ends with two probes in flight |
| `ClassifierCircuit.RunKeepsInv` | packages/chat-agent/src/agent/llm-content-classifier.ts:58-192 | with a short deadline every run keeps the breaker's invariant |
| `ClassifierCircuit.FailuresStayBelowThreshold` | packages/chat-agent/src/agent/llm-content-classifier.ts:183-190 | the failure count stays below the threshold in every run, whatever the deadline |
| `ClassifierCircuit.OpensAtTheFifthConsecutiveFailure` | packages/chat-agent/src/agent/llm-content-classifier.ts:129-192 | from closed, the circuit opens exactly when five provider failures came without a success in between, for the cooldown from the fifth; parse failures and uncounted endings do not matter |
| `ClassifierCircuit.NothingAdmittedWhileOpen` | packages/chat-agent/src/agent/llm-content-classifier.ts:141-192 | from any reachable open state, no call is admitted before `openUntil` unless an earlier call succeeds |
| `ClassifierCircuit.FailedProbeShutsForThirtySeconds` | packages/chat-agent/src/agent/llm-content-classifier.ts:141-182 | after a half-open probe that failed at the provider no call is admitted for thirty seconds, and of the calls that come while none ends exactly the first one after that is |
| `ClassifierCircuit.UncountedProbeLetsOneMoreIn` | packages/chat-agent/src/agent/llm-content-classifier.ts:107-151 | after a probe whose end does not count exactly one more call is admitted, at once |
| `ClassifierCircuit.AnsweredProbeLetsAllIn` | packages/chat-agent/src/agent/llm-content-classifier.ts:129-171 | after a probe that was answered, readably or not, every call is admitted until five failures without a success |
| `ClassifierCircuit.SuccessReopensEarly` | packages/chat-agent/src/agent/llm-content-classifier.ts:129-151 | a run in which such a success lets a call in before `openUntil` |
| `ClassifierCircuit.LlmContentClassifier.constructor` | packages/chat-agent/src/agent/llm-content-classifier.ts:51-56 | the circuit starts closed |
| `ClassifierCircuit.LlmContentClassifier.Admit` | packages/chat-agent/src/agent/llm-content-classifier.ts:141-151 | the in-place gate is `AdmitStep` |
| `ClassifierCircuit.LlmContentClassifier.SettleFailure` | packages/chat-agent/src/agent/llm-content-classifier.ts:153-192 | the in-place failure handling is `FinishStep` |
| `ClassifierCircuit.LlmContentClassifier.Finish` | packages/chat-agent/src/agent/llm-content-classifier.ts:87-138 | the end of a call is `FinishStep` |
| `Clarification.Normalize` | packages/chat-agent/src/clarification/clarification-state.ts:62-86 | each limit is kept if it is in range, capped if above, and the default if below |
| `Clarification.IrrelevantAnswersAreCounted` | packages/chat-agent/src/clarification/clarification-core.ts:186-227 | from `begin`, exactly (maxAttempts+1)(maxMenuResets+1)-1 irrelevant answers are replied to, whatever they are; the next clears |
| `Clarification.VersionsStrictlyIncrease` | packages/chat-agent/src/clarification/clarification-core.ts:160-259 | of two moments of a lifecycle the later has the higher version, unless nothing was written in between |
| `Clarification.ExpiryFollowsTheLastAnswer` | packages/chat-agent/src/clarification/clarification-core.ts:160-247 | a state expires the configured lifetime after its beginning or its last answer; a failed delivery does not renew it |
| `Clarification.ExactlyTheRetainedEventsAreSuppressed` | packages/chat-agent/src/clarification/clarification-core.ts:121-305 | while unexpired and for the same user, an event is suppressed exactly when its id is among the last eight, unless it is the latest and its delivery is known to have failed; as `replayed` exactly when it is the latest |
| `Clarification.EveryEventIsJudged` | packages/chat-agent/src/clarification/clarification-core.ts:273-305 | over every lifecycle, what an event meets: an expired state, another user's, a retained event, or a retry with the choice or the reply it had before |
| `Clarification.FailedEventIsRetried` | packages/chat-agent/src/clarification/clarification-core.ts:253-302 | after a failed delivery that event goes ahead, or gets its choice back |
| `Clarification.ReplayOfChoiceNeedsNoEarlierFailure` | packages/chat-agent/src/clarification/clarification-core.ts:230-247 | the event of an accepted choice is suppressed on replay exactly when no failure mark was up before; otherwise the choice is handed out again |
| `Clarification.FailureMark` | packages/chat-agent/src/clarification/clarification-core.ts:186-259 | the failure mark is up exactly when a failure was reported for the event that was then the latest and no irrelevant answer came since |
| `Clarification.RefreshedStateReadsBackWithinADay` | packages/chat-agent/src/clarification/clarification-state.ts:294-362 | after every lifecycle the state can be read again exactly when its expiry, counted from the last answer of either kind, is after its beginning and within a day of it, and its texts are of readable length |
| `Clarification.OutOfBoundsIsNotRead` | packages/chat-agent/src/clarification/clarification-state.ts:294-362 | no state with a counter, version, user id or event list out of bounds is read |
| `Clarification.LateChoiceCannotBeReadBack` | packages/chat-agent/src/clarification/clarification-core.ts:230-247 | with a lifetime over half a day, a choice made in time leaves a state that cannot be read |
| `Paging.IterateMappingPages` | packages/bot-common/src/utils/paging.utils.ts:47-68 | over a changing keyset source: ids in order without repetition, every row present throughout delivered, none that was never there; on a fixed source of n rows exactly those rows in n/limit + 1 fetches; a stop has seen everything up to its last row; a limit of zero throws |
| `Paging.FetchReads` | packages/bot-common/src/utils/paging.utils.ts:38-45 | only a limit of zero throws; a page without continuation holds all that is left |
| `ChatHistory.BothHoldTheEndOfTheLog` | packages/chat-history/src/redis-chat-history-store.ts:46-71 | for a limit of at least one, both stores hold exactly the last messages of the full log |
| `ChatHistory.StoresAgreeIff` | packages/chat-history/src/memory-chat-history-store.ts:72-103 | the stores agree on every sequence of turns if and only if the limit is neither 0 nor -1 |
| `ChatHistory.TurnIsTheLastWord` | packages/chat-history/src/memory-chat-history-store.ts:72-103 | after a turn the last two messages of either store are the learner's text, as the user's, and the answer, as the assistant's, both trimmed; a turn with a blank text leaves no trace |
| `JsText.TrimIsExact` | packages/chat-history/src/memory-chat-history-store.ts:77-78 | trimming takes the blanks off both ends of a text and no more |
| `JsText.BlanksAreExact` | packages/chat-history/src/memory-chat-history-store.ts:77-78 | the blanks are the white space and line terminators of ECMA-262 |
| `ChatHistory.RedisChatHistoryStore.constructor` | packages/chat-history/src/redis-chat-history-store.ts:82-89 | the store starts empty |
| `ChatHistory.RedisChatHistoryStore.Tail` | packages/chat-history/src/redis-chat-history-store.ts:62-68 | the loop copies exactly the tail |
| `ChatHistory.RedisChatHistoryStore.AppendAtomic` | packages/chat-history/src/redis-chat-history-store.ts:46-71 | the script appends, trims and renews the expiry of one key |
| `ChatHistory.RedisChatHistoryStore.AppendTurn` | packages/chat-history/src/redis-chat-history-store.ts:102-117 | a turn is one script call, and a blank text none |
| `ChatHistory.MemoryChatHistoryStore.constructor` | packages/chat-history/src/memory-chat-history-store.ts:44-47 | the store starts empty |
| `ChatHistory.MemoryChatHistoryStore.GetHistory` | packages/chat-history/src/memory-chat-history-store.ts:49-70 | the unexpired messages followed by the unexpired summaries; an expired history is dropped |
| `ChatHistory.MemoryChatHistoryStore.AppendTurn` | packages/chat-history/src/memory-chat-history-store.ts:72-103 | the turn is added to the unexpired history, trimmed, and the pending summaries go; a blank text changes nothing |
| `ChatHistory.MemoryChatHistoryStore.EvictStale` | packages/chat-history/src/memory-chat-history-store.ts:133-167 | no expired history or summary remains, at most `maxUsers` users do and no fewer than needed, no live user is evicted before an older one, and an evicted user's summaries go too |
| `ChatHistory.SweepIsExact` | packages/chat-history/src/memory-chat-history-store.ts:133-150 | a history stays exactly until it is older than `ttlMs`, and a user's summaries until none is left |
| `ChatHistory.AliveIsExact` | packages/chat-history/src/memory-chat-history-store.ts:60-61 | a summary is let go exactly once it is older than `ttlMs`; the others keep their order |
| `ChatHistory.SummariesAreToolMessages` | packages/chat-history/src/memory-chat-history-store.ts:60-69 | each summary is shown as a message of the tool's, in order |
| `ChatHistory.SortByAge` | packages/chat-history/src/memory-chat-history-store.ts:154-156 | all users, once each, oldest first |
| `Ipv6Forms.RoundTrip` | packages/bot-common/src/utils/network-utils.ts:54-108 | every text form of section 2.2 of RFC 4291, full or compressed, with or without a dotted quad, in any spelling of its groups, parses to exactly the eight groups it stands for |
| `Ipv6Spelling.FullAddressReads` | packages/bot-common/src/utils/network-utils.ts:92-108 | eight numbers written with one to four hexadecimal digits, each in either case, are read as these numbers |
| `Ipv6Spelling.CompressedAddressReads` | packages/bot-common/src/utils/network-utils.ts:74-108 | the same around `::`, which stands for the missing noughts |
| `Ipv6Spelling.QuadAddressReads` | packages/bot-common/src/utils/network-utils.ts:54-156 | the same with the last two numbers written as four decimal octets |
| `Ipv6Spelling.CompressedQuadAddressReads` | packages/bot-common/src/utils/network-utils.ts:54-156 | the same with both |
| `Ipv6Spelling.HexTextIsWorthIt` | packages/bot-common/src/utils/network-utils.ts:101-101 | a number is the value of its hexadecimal digits, digit by digit, in either case |
| `Ipv6Spelling.HexTextsAreSpelt` | packages/bot-common/src/utils/network-utils.ts:101-101 | a text is made of the digits the parser reads exactly if it spells a number with the sixteen digits, in either case |
| `Ipv6Spelling.OctetTextsAreSpelt` | packages/bot-common/src/utils/network-utils.ts:59-61 | a text passes for an octet of a quad exactly if it spells a number with one to three decimal digits |
| `Ipv6Forms.AcceptedIff` | packages/bot-common/src/utils/network-utils.ts:54-156 | a text is accepted exactly when it is such a form, or a loose form with something relaxed |
| `Ipv6Forms.LooseReads` | packages/bot-common/src/utils/network-utils.ts:54-156 | every loose form parses to the eight groups its parts make |
| `Ipv6Text.ParseIPv6` | packages/bot-common/src/utils/network-utils.ts:54-108 | whatever is parsed is eight groups of sixteen bits |
| `Ipv6Text.ParseQuad` | packages/bot-common/src/utils/network-utils.ts:59-64 | whatever is parsed of the dotted quad the pattern found is four octets |
| `Ipv6Text.ParseSixGroups` | packages/bot-common/src/utils/network-utils.ts:124-155 | whatever is parsed is six groups of sixteen bits |
| `Ipv6Text.ParseIPv6Head` | packages/bot-common/src/utils/network-utils.ts:115-156 | the same of a head with its last colon taken off |
| `Ipv6Forms.QuadNeedsNoCompression` | packages/bot-common/src/utils/network-utils.ts:144-155 | a dotted quad after one to five groups is read without `::` as if `::` stood before it |
| `Ipv6Forms.LeadingColonIsRead` | packages/bot-common/src/utils/network-utils.ts:99-104 | one colon before seven groups is none of the forms, and is read with a first group of nought |
| `Ipv6Numbers.ParseHexIff` | packages/bot-common/src/utils/network-utils.ts:101-101 | `parseInt(s, 16)` is a number exactly for blanks, a sign and `0x`, each or none, digits and any rest, and is then the number of the digits |
| `Ipv6Forms.GroupReadsIff` | packages/bot-common/src/utils/network-utils.ts:99-104 | a group is read exactly when it is such a text and the number is at most sixteen bits, or nought after a minus |
| `Ipv6Forms.TextAfterAGroupIsIgnored` | packages/bot-common/src/utils/network-utils.ts:99-104 | a group is read up to its first character that is no digit |
| `Ipv6Forms.FullAddressIgnoresText` | packages/bot-common/src/utils/network-utils.ts:85-108 | so a full address with text after one of its groups is read as the address without it |

## Left out

- The NestJS wiring, controllers, tracing, metrics, log lines and message texts: no property to prove.
- The TypeORM and Redis adapters behind the ports: they appear only as the port's contract, or as environment steps; of the SQL attempt store, the read and the write of the notification count are steps.
- A `clearAttempt` that throws before returning a promise has no step of its own: it ends the call as a crash at that await does, which is a step.
- Hashing, random ids, JSON and time zones: foreign code; ids and nonces are assumed fresh, and the limiter's bucket key is a parameter.
- `PlatformChatQueueService`, `PlatformAgentService` and the agent's tool rounds: their guarantees rest on collaborators that are not part of this model.
- The write-tool budget gate, the scope, intent and redaction patterns, and private-host classification: they would only add easy members.
- The merging of queue contexts, the polling wait of `flushOrWait` and the final clearing in `destroy`: the queue model covers the segments before shutdown completes.
- Tool summaries in the Redis history, `appendToolSummary` and `clear` of the in-memory history, and corrupt stored JSON: the agreement of the two stores is stated for turns.
- The classifier's input projection and reply parsing: pure and short.
- The limit on how many due notifications a tick lists, and the order of the list: one record is followed.
- What Redis does to a key between two calls, such as expiring it while the clock is ahead and then going back: the key is looked at when a call comes.
- Ipv6Text.ParseQuad: does not model `parseIPv4` on whole host names, only on the dotted quad the IPv6 parser hands it, because the other use belongs to the host classification that is left out.
- Fractional or non-finite configuration numbers.
