# Broker and client ledgers of the A2A gateway, proved

The gateway lets native tool calls on a device run as operations on a remote peer. A client daemon keeps a durable
ledger on the device, a broker keeps one on the server, and both survive crashes on either side and a network that
loses, delays, repeats and reorders. This project models that protocol and proves what it promises, over every run.

`dafny verify dfyconfig.toml` checks the whole project.

## How the project is organised

* **Broker.** `Ledger` holds the tables and one function per transaction; `BrokerStore` is the class that updates the
  tables in place, each method proved equal to its function. `Broker` is the running process as a state machine: HTTP
  requests, the dispatcher loop, its stream, read and cancel jobs, crashes and restarts interleave freely.
  `LedgerInvariant`, `LedgerSteps`, `BrokerInvariant` and `BrokerSteps` carry the invariants through every step,
  `BrokerTheorems`, `ClaimOrders`, `Finality` and `FreshJobs` draw the conclusions; `Transactions` says what each
  transaction means to those who use the ledger, `Lifetimes` how long what it wrote lasts, over every run. `Submissions`
  says what a stream job must do with each result. `Dispatcher` is the dispatcher class:
  the loop body and the submission coroutine are proved to be runs of that machine, with other coroutines running at
  every await of either; `DispatcherSteps` shows by induction what such a run may change. `Runs` cuts and joins runs;
  `Scenes` and `Witnesses` build concrete ones.
* **Client.** `ClientLedger`, `ClientStore`, `Client`, `ClientInvariant` and `ClientService` are the same five layers for
  the client daemon: functions, class, machine, invariants, and the service loops proved to be runs of the machine;
  `ClientTransactions` says what each transaction means.
* **Both together.** `System` composes one client with the broker. Every answer the broker ever gave stays deliverable,
  in any order, any number of times. `SystemInvariant` and `SystemSteps` prove the joint invariant, `SystemTheorems`
  states the end-to-end results, `StuckClient` and `PassedClient` exhibit the two kinds of history they except.
  `FinalEvents` shows that a final event is the last one of its operation.
* **Event stream.** `EventStream` is the stream generator, `SseFrames` the frames on the wire and the client's line
  reader, `Decimal` the numbers in them. `PayloadFates` decides what becomes of a frame whose payload holds a line break,
  `Deliveries` what a whole response delivers, `BrokenPayloads` which payloads come through; `StreamReading` ties reading
  the text to the steps of the composed system.
* **Peer stream.** `PeerChunks` folds chunked artifacts, over `Base64` (section 4 of RFC 4648).
* **Data structures.** `Limiter` (sliding window), `TaskStore` (watchers and trimming), `StderrScan` (bounded scan).

Time is an integer (a real in the limiter) passed to each transaction. UUIDs, clock readings, the answers of the network
and whether a coroutine is interrupted are arguments, which the contracts speak about; encryption is the identity and a
digest is the digested value itself. The component `log` of the broker ledger, and the lists of claims, submissions,
posts, enqueues and heard outcomes in the machines, are histories: nothing in the modelled code reads them.

## What does not hold

* An event whose JSON contains a character the client's line iterator breaks at never comes through. The broker writes
  JSON without ASCII escaping (src/hermes_a2a_gateway/broker_store.py:46), so U+2028, U+2029 or U+0085 inside a result
  text is such a character. `BrokenPayloads.PayloadSurvives` shows that freedom from such characters is exactly the
  condition. What happens instead depends on the lines after the break, and `Deliveries.FrameFate` with
  `PayloadFates.BrokenFate` says exactly which: the frame is passed in silence if and only if
  `PayloadFates.SilentlyPassed` holds of its text (at every blank line the event is no operation, has no data or a number
  the client already has, its numbers parse and it stays within the bound); otherwise the reader stops with the cursor
  unmoved. `PayloadFates.JsonPiecesRefused` shows that no piece of a broken JSON payload is ever taken for a snapshot.
* If the reader stops at an event, it stops there again after every reconnect: the cursor stays below it through any later
  history until gap recovery moves it (`SystemTheorems.StreamHeldUp`). `BrokenPayloads.SnapshotLost` gives snapshot texts
  of this kind.
* If the reader passes an event, the next one moves the cursor past it for good. `BrokenPayloads.SnapshotPassed` gives
  snapshot texts: the result text holds a break and then `event:x`. When it is a final event, the stream never delivers
  the result; the client shows it if and only if an answer brought it (a GET, a post, a cancel or gap recovery).
  `PassedClient.ResultPassed` is a history in which the cursor is past the final event and the client still shows the
  operation as running.
* A client that stored an unknown outcome before the broker knew a remote handle never learns the final one. This
  happens when a submission is timed out or canceled while its first handle is being written: `save_handle` goes on in
  its thread (src/hermes_a2a_gateway/broker.py:121) after the coroutine has left for `_unknown`
  (src/hermes_a2a_gateway/broker.py:185-201), so the unknown outcome is logged without a handle, and a read job then
  resolves it by the handle that arrived. `StuckClient.ResultMissed` is that history; `SystemTheorems.StuckForever` shows
  that no later history undoes it.
* `SystemTheorems.NoLostResult` shows that these two, a passed event without an answer and a stuck unknown outcome, are
  the only ways in which the cursor gets past a final event that the client does not show.
* `set_state` with a terminal state on a watched record strands its watchers (`TaskStore.StrandedWatcher`);
  `TaskStore.TaskStore.SetState` states that this is the only way. The adapter's one call passes the working state
  (compat/hermes/upstream/adapter.py:571), so there it cannot happen, and `TaskStore.TaskStore.Serve` proves the watcher
  property over every sequence of the adapter's calls.
* Operations of a flow are not always claimed in (created_at, operation_id) order: `Witnesses.LateArrival` is a run
  where they are not. Under a clock that does not go back, `ClaimOrders.ClaimOrderIff` says exactly when: the operation
  claimed later was accepted after the earlier claim, with the same creation time and a smaller id. Among operations
  known at the claim the order always holds, whatever the clock does (`BrokerTheorems.ClaimOrderExact`).

## Model

| member | source | states |
|---|---|---|
| `SystemTheorems.AtMostOnceExecution` | src/hermes_a2a_gateway/client.py:193-213 | Over every history of both processes and the network, two peer submissions of the device always stem from two different native calls. |
| `SystemTheorems.PostsNeverConflict` | src/hermes_a2a_gateway/client_store.py:123-183 | All posts for one operation id carry one request, so the broker never answers one of them with an id conflict. |
| `SystemTheorems.NoLostResult` | src/hermes_a2a_gateway/client.py:293-309 | When the client's cursor is at or past the event that made an operation final, the client shows that state and result id if and only if it is not stuck on an unknown outcome without a handle and, in case the event's text lets the reader pass it in silence, an answer brought a final snapshot of the operation. |
| `SystemTheorems.PassedNeedsAnswer` | src/hermes_a2a_gateway/client.py:181-191 | An outcome announced by an event that can be passed is shown only in histories that hold an accepted answer (GET, post, cancel or gap recovery) with a final snapshot of the operation. |
| `SystemTheorems.HeardFrom` | src/hermes_a2a_gateway/client.py:174-191 | Over every history, an operation counts as heard only through such an answer. |
| `SystemTheorems.StreamHeldUp` | src/hermes_a2a_gateway/client.py:310-312 | An event that is neither one line nor passable keeps the cursor below it through any later history that does not finish a gap recovery. |
| `PassedClient.ResultPassed` | src/hermes_a2a_gateway/client.py:293-309 | For every configuration whose writer leaves the result text unescaped there is a history in which the reader passes the final event, the cursor moves on, and the client shows the operation as running without being stuck. |
| `PassedClient.PassedResult` | src/hermes_a2a_gateway/broker_store.py:45-46 | A snapshot whose result text holds U+2028 and then `event:x` is passed at every cursor. |
| `Witnesses.CompletedThenNext` | src/hermes_a2a_gateway/broker.py:164-166 | The broker's part of it: an operation completed with that result, a later one accepted and claimed, six events in the log. |
| `FinalEvents.OneFinalEvent` | src/hermes_a2a_gateway/broker_store.py:294-306 | Over every broker run each operation has at most one final event in its device's log, and no event after it. |
| `FinalEvents.StepFresh` | src/hermes_a2a_gateway/broker_store.py:167-181 | Every step logs events only for operations that were not final; restart recovery logs only unknown outcomes. |
| `SystemTheorems.StuckForever` | src/hermes_a2a_gateway/client_store.py:226-251 | An unknown outcome stored without a handle is still the one shown after any later history. |
| `StuckClient.ResultMissed` | src/hermes_a2a_gateway/broker.py:120-126 | For every configuration whose writer puts plain snapshots on one line there is a history in which a late-written handle leads to a final event the client reads and never shows. |
| `Witnesses.ResolvedLate` | src/hermes_a2a_gateway/broker.py:185-201 | The broker's part of it: given up without a handle, handle written afterwards, completed by a read job, five events in the log. |
| `SystemTheorems.ResolutionsMatch` | src/hermes_a2a_gateway/client_store.py:228-235 | Between any two points of a broker run, an unknown outcome with a saved handle has become final exactly when the two snapshots pass the client's exact-resolution test. |
| `SystemTheorems.NeverRefused` | src/hermes_a2a_gateway/client_store.py:207-225 | No answer or event of the broker is ever refused by the client for a missing result id or a disagreeing flow. |
| `SystemTheorems.ReceiptsAlwaysAccepted` | src/hermes_a2a_gateway/broker_store.py:450-461 | Every receipt in the client's table, restart repair included, is accepted by the broker in every reachable state. |
| `SystemTheorems.DeliveredAtMostOnce` | src/hermes_a2a_gateway/client.py:223-253 | An operation is enqueued natively at most once in all of history, only when final, and the result id named there is the one shown ever after. |
| `SystemTheorems.InlineExcludesQueue` | src/hermes_a2a_gateway/client_store.py:273-282 | A result returned inline stays so, and any enqueue attempted for it reported that nothing was queued. |
| `SystemTheorems.CancelPostedOnce` | src/hermes_a2a_gateway/client.py:378-391 | The client posts at most one cancel per operation across restarts. |
| `SystemSteps.HistoryKeeps` | src/hermes_a2a_gateway/client.py:255-312 | The joint invariant of both ledgers, the answers in flight, the cursor, the open stream, passed events and gap recovery holds along every history. |
| `SystemSteps.EverySystemStep` | src/hermes_a2a_gateway/client.py:174-213 | Each step of client or broker keeps the joint invariant. |
| `SystemSteps.OnClientKeeps` | src/hermes_a2a_gateway/client.py:274-309 | Each client step keeps it, the skip of a passed event included: what is behind the cursor is settled or passable, what the stream read beyond the cursor is passable, a final outcome held came in an answer or in an event of one line. |
| `SystemSteps.PassMoves` | src/hermes_a2a_gateway/client.py:298-303 | Passing an event moves the stream and not the cursor, and keeps the reader's part of the invariant. |
| `SystemSteps.ExpiredSettled` | src/hermes_a2a_gateway/client_store.py:350-366 | Rows that gap recovery skips because they expired are already settled. |
| `SystemSteps.MergeSettles` | src/hermes_a2a_gateway/client_store.py:226-251 | Merging a final snapshot of the same row settles the client's row unless it is stuck. |
| `SystemInvariant.OnBrokerKeeps` | src/hermes_a2a_gateway/broker_store.py:184-461 | Each broker step keeps the joint invariant, including what every answer ever given says about the current row. |
| `BrokerTheorems.RunKeeps` | src/hermes_a2a_gateway/broker.py:249-311 | The broker invariant holds along every run, and rows, logs and floors only evolve as allowed. |
| `BrokerTheorems.AtMostOnce` | src/hermes_a2a_gateway/broker.py:179-197 | No operation is claimed, submitted to the peer or canceled at the peer twice, and only claimed ones are submitted. |
| `BrokerTheorems.JobTables` | src/hermes_a2a_gateway/broker.py:249-285 | Every job table stays within the limit, streams and reads are disjoint, and no live entry is overwritten. |
| `BrokerTheorems.FlowSerialized` | src/hermes_a2a_gateway/broker_store.py:253-260 | A (device, flow) never has two operations running or unknown. |
| `BrokerTheorems.WorkConserving` | src/hermes_a2a_gateway/broker_store.py:253-262 | In every reachable state nothing can be claimed if and only if every waiting operation is held by an active one of its own flow. |
| `BrokerTheorems.ClaimShrinksQueue` | src/hermes_a2a_gateway/broker_store.py:268-292 | A claim that finds a candidate removes exactly that one from the waiting operations, dispatched or failed. |
| `BrokerTheorems.ClaimOrderExact` | src/hermes_a2a_gateway/broker_store.py:253-260 | Whatever the clock does, an operation already known and claimed later follows the claimed one of its flow in (created_at, operation_id) order. |
| `BrokerTheorems.ClaimOrder` | src/hermes_a2a_gateway/broker_store.py:224-230 | Under a clock that does not go back, operations of a flow are claimed in order of creation times, late arrivals included. |
| `ClaimOrders.ClaimOrderIff` | src/hermes_a2a_gateway/broker_store.py:253-260 | Under such a clock, two claims of a flow are out of (created_at, operation_id) order if and only if the later one was accepted after the earlier was taken, at the same creation time and with a smaller id. |
| `ClaimOrders.KnownInOrder` | src/hermes_a2a_gateway/broker_store.py:253-260 | Claims of operations known when an earlier one of the flow was taken are in order, for any clock. |
| `ClaimOrders.ClaimMoment` | src/hermes_a2a_gateway/broker.py:280-285 | Every claim in the list was taken at some position of the run. |
| `Witnesses.LateArrival` | src/hermes_a2a_gateway/broker_store.py:224-230 | A run in which two claims of a flow are out of (created_at, operation_id) order. |
| `BrokerTheorems.LogRebuildsLedger` | src/hermes_a2a_gateway/broker_store.py:145-182 | Folding a device's whole event log rebuilds its part of the operations table, up to expired results. |
| `BrokerTheorems.RetainedEvents` | src/hermes_a2a_gateway/broker_store.py:529-539 | The retained events are exactly the numbers in (floor, sequence], whatever the clock did, and repeat the log. |
| `BrokerTheorems.TablesAgree` | src/hermes_a2a_gateway/broker_store.py:196-241 | Outbox and payloads agree with the operations table; pending operations and artifact bytes stay within their limits. |
| `BrokerTheorems.OutcomesSettle` | src/hermes_a2a_gateway/broker_store.py:294-352 | Between any two points of a run: handle and result id are written once, final rows are frozen, an unknown outcome becomes final only with a saved handle, and a result id exists exactly in terminal states. |
| `BrokerTheorems.SubmissionClosed` | src/hermes_a2a_gateway/broker.py:179-215 | A stream job that returned left its operation terminal, and completed operations had a completed peer result. |
| `Finality.FinalFrom` | src/hermes_a2a_gateway/broker_store.py:294-318 | Over any run a claimed operation becomes final only by the settling of an observed terminal result. |
| `BrokerSteps.EveryStep` | src/hermes_a2a_gateway/broker.py:116-311 | Each of the broker's steps keeps the invariant and lets rows evolve only as allowed. |
| `BrokerSteps.TakeClaimKeeps` | src/hermes_a2a_gateway/broker.py:280-285 | Claiming and inserting the stream job keeps the invariant. |
| `BrokerSteps.TakeReadsKeeps` | src/hermes_a2a_gateway/broker.py:268-279 | Starting read jobs keeps the tables bounded and disjoint. |
| `BrokerSteps.ObserveKeeps` | src/hermes_a2a_gateway/broker.py:116-126 | Saving a peer handle, accepted or refused, keeps the invariant. |
| `BrokerSteps.JobFinish` | src/hermes_a2a_gateway/broker.py:127-177 | Finishing an operation from a job keeps the invariant. |
| `LedgerSteps.AcceptKeeps` | src/hermes_a2a_gateway/broker_store.py:184-241 | Admission keeps the ledger invariant. |
| `LedgerSteps.ClaimKeeps` | src/hermes_a2a_gateway/broker_store.py:263-292 | Claiming keeps it, also when the operation fails instead. |
| `LedgerSteps.FinishKeeps` | src/hermes_a2a_gateway/broker_store.py:294-335 | Finishing keeps it. |
| `LedgerSteps.SaveHandleKeeps` | src/hermes_a2a_gateway/broker_store.py:337-352 | Saving a handle keeps it. |
| `LedgerSteps.CloseAllKeeps` | src/hermes_a2a_gateway/broker_store.py:354-372 | Restart recovery keeps it. |
| `LedgerSteps.CancelIntentKeeps` | src/hermes_a2a_gateway/broker_store.py:388-402 | A cancel request keeps it. |
| `LedgerSteps.EventsKeeps` | src/hermes_a2a_gateway/broker_store.py:426-448 | Reading a page, with the purge it does, keeps it. |
| `LedgerSteps.PurgeKeeps` | src/hermes_a2a_gateway/broker_store.py:541-550 | Retention keeps it. |
| `LedgerSteps.PutArtifactKeeps` | src/hermes_a2a_gateway/broker_store.py:473-503 | Storing an artifact keeps it, the quota in particular. |
| `LedgerInvariant.PublishKeeps` | src/hermes_a2a_gateway/broker_store.py:167-182 | Writing a row and logging its snapshot keeps tables, counts, flows, log and history in agreement. |
| `LedgerInvariant.PurgeDeviceKeeps` | src/hermes_a2a_gateway/broker_store.py:529-539 | Purging a prefix leaves no hole above the floor. |
| `BrokerStore.BrokerStore.Accept` | src/hermes_a2a_gateway/broker_store.py:184-241 | The method's tables and reply equal the admission transaction, every refusal included. |
| `BrokerStore.BrokerStore.CheckInputs` | src/hermes_a2a_gateway/broker_store.py:206-219 | The attachment loop returns the total size or the first refusal. |
| `BrokerStore.BrokerStore.Get` | src/hermes_a2a_gateway/broker_store.py:243-245 | The snapshot of the row, or not found. |
| `BrokerStore.BrokerStore.Claim` | src/hermes_a2a_gateway/broker_store.py:247-292 | It picks the first candidate in (created_at, operation_id) order and none only if there is none. |
| `BrokerStore.BrokerStore.Dispatch` | src/hermes_a2a_gateway/broker_store.py:263-292 | The chosen operation is dispatched, or failed for an expired payload or attachment. |
| `BrokerStore.BrokerStore.CloseRow` | src/hermes_a2a_gateway/broker_store.py:294-318 | Final rows are left alone, others closed with outbox, payload and event. |
| `BrokerStore.BrokerStore.Finish` | src/hermes_a2a_gateway/broker_store.py:320-335 | The method equals the finishing transaction, with its size limit. |
| `BrokerStore.BrokerStore.SaveHandle` | src/hermes_a2a_gateway/broker_store.py:337-352 | The method equals the handle transaction, conflicts included. |
| `BrokerStore.BrokerStore.Recover` | src/hermes_a2a_gateway/broker_store.py:354-372 | Exactly the rows found running become unknown, one after the other. |
| `BrokerStore.BrokerStore.Reconcilable` | src/hermes_a2a_gateway/broker_store.py:374-386 | It returns the 20 first rows by poll time and update time, in that order, and stamps exactly those. |
| `BrokerStore.BrokerStore.CancelIntent` | src/hermes_a2a_gateway/broker_store.py:388-402 | The method equals the cancel transaction in all four cases. |
| `BrokerStore.BrokerStore.ClaimCancel` | src/hermes_a2a_gateway/broker_store.py:404-424 | It claims an oldest cancelable row, and none only if there is none. |
| `BrokerStore.BrokerStore.Events` | src/hermes_a2a_gateway/broker_store.py:426-448 | The method equals the page transaction; a refused cursor undoes the purge. |
| `BrokerStore.BrokerStore.AddReceipt` | src/hermes_a2a_gateway/broker_store.py:450-461 | The method equals the receipt transaction. |
| `BrokerStore.BrokerStore.PutArtifact` | src/hermes_a2a_gateway/broker_store.py:473-503 | The method equals the artifact transaction, with every refusal. |
| `BrokerStore.BrokerStore.FindArtifact` | src/hermes_a2a_gateway/broker_store.py:505-516 | It finds the unexpired artifact of that id, if any. |
| `BrokerStore.BrokerStore.PurgeEvents` | src/hermes_a2a_gateway/broker_store.py:529-539 | It drops the prefix up to the last expired event and raises the floor over it. |
| `BrokerStore.BrokerStore.Purge` | src/hermes_a2a_gateway/broker_store.py:541-550 | The method equals the retention transaction over all devices and tables. |
| `BrokerStore.SelectFirst` | src/hermes_a2a_gateway/broker_store.py:253-260 | The row selected is least in the given order. |
| `BrokerStore.SelectUpTo` | src/hermes_a2a_gateway/broker_store.py:376-380 | The rows selected are distinct, as many as asked or all, least in the given order, and in that order. |
| `Transactions.FinishShows` | src/hermes_a2a_gateway/broker_store.py:294-318 | A result within the limit is shown to every reader at every time before `now` plus its time to live, without error, and as expired from then on. |
| `Transactions.FinishDiagnoses` | src/hermes_a2a_gateway/broker_store.py:145-165 | The details of a refusal are shown with its code for the same time. |
| `Transactions.FinishFails` | src/hermes_a2a_gateway/broker_store.py:320-335 | An outcome without result is shown for ever; one that is too large is a failure that says so. |
| `Transactions.FinishLogs` | src/hermes_a2a_gateway/broker_store.py:304-318 | Finishing logs one event, answers with it, erases the payload, and changes no other operation. |
| `Transactions.FinishKeeps` | src/hermes_a2a_gateway/broker_store.py:308-312 | Finishing keeps handle, identity and an earlier result id. |
| `Transactions.FinishedOnce` | src/hermes_a2a_gateway/broker_store.py:304-306 | Finishing a final operation changes nothing and answers with what is there. |
| `Transactions.GetShows` | src/hermes_a2a_gateway/broker_store.py:145-165 | What a reader is shown of an operation, at any time. |
| `Transactions.EventLifetime` | src/hermes_a2a_gateway/broker_store.py:172-180 | An event can be read exactly while it is younger than both times to live. |
| `Transactions.EventsKept` | src/hermes_a2a_gateway/broker_store.py:529-539 | A purge keeps an event exactly if neither it nor a later one has expired; the floor is the last number gone. |
| `Transactions.PurgeExact` | src/hermes_a2a_gateway/broker_store.py:541-550 | A purge deletes exactly the expired payloads and artifacts, in order, and erases exactly the expired results. |
| `Transactions.PurgeUnseen` | src/hermes_a2a_gateway/broker_store.py:541-550 | Readers see the same before and after a purge. |
| `Transactions.UploadOutcome` | src/hermes_a2a_gateway/broker_store.py:473-503 | An upload is taken exactly if it is small enough, intact, typed, within the quota left by unexpired artifacts, and its id is free. |
| `Transactions.ArtifactLifetime` | src/hermes_a2a_gateway/broker_store.py:487-523 | A stored artifact is read back exactly until its time to live is over. |
| `Transactions.ClaimOutcome` | src/hermes_a2a_gateway/broker_store.py:247-292 | A claim dispatches with the stored request exactly if payload and attachments can still be read, and fails the operation for the right reason otherwise. |
| `Transactions.PurgeThenClaim` | src/hermes_a2a_gateway/broker_store.py:541-550 | A purge before the claim takes away nothing the claim could have used. |
| `Transactions.AcceptNew` | src/hermes_a2a_gateway/broker_store.py:184-241 | A new request is admitted exactly when admissible, and then waits with its payload, logged once, for its time to live. |
| `Transactions.AcceptAgain` | src/hermes_a2a_gateway/broker_store.py:188-195 | A known id is answered with its operation or refused, without effect. |
| `Transactions.InputsExact` | src/hermes_a2a_gateway/broker_store.py:206-222 | Attachments are accepted exactly if each is readable plain text; their sizes add up. |
| `Transactions.CancelRecorded` | src/hermes_a2a_gateway/broker_store.py:388-400 | A cancel of a running or unknown operation records the intent, so that the peer can be told once there is a handle. |
| `Transactions.CancelTwice` | src/hermes_a2a_gateway/broker_store.py:394-395 | A second cancel logs and changes nothing. |
| `Transactions.CancelSettles` | src/hermes_a2a_gateway/broker_store.py:392-395 | An unclaimed operation is canceled for good and never dispatched; a final one is only shown. |
| `Transactions.CancelClaimed` | src/hermes_a2a_gateway/broker_store.py:404-424 | A claimed intent is not claimed again; nothing else changes. |
| `Transactions.HandleOutcome` | src/hermes_a2a_gateway/broker_store.py:337-352 | The first valid handle is saved and logged; another is refused; a final operation is left alone. |
| `Transactions.ReceiptOutcome` | src/hermes_a2a_gateway/broker_store.py:450-461 | A receipt is taken exactly for the result id of the operation. |
| `Transactions.RecoverOutcome` | src/hermes_a2a_gateway/broker_store.py:354-372 | After a restart exactly the operations found running are unknown because of it; the rest is as it was. |
| `Lifetimes.SettledResultShows` | src/hermes_a2a_gateway/broker_store.py:308-312 | Over every later run a settled result is shown until its time to live is over, if nothing was deleted at or after that, and as expired from then on. |
| `Lifetimes.ResultLasts` | src/hermes_a2a_gateway/broker_store.py:145-165 | No step changes what is shown of a final operation before its result expires. |
| `Lifetimes.WaitingIsDispatched` | src/hermes_a2a_gateway/broker.py:257-285 | Whatever happens in between, the claim that finds a waiting operation dispatches it if payload and attachments outlast that claim and every deletion, and fails it once the payload has expired. |
| `Lifetimes.AcceptedIsDispatched` | src/hermes_a2a_gateway/broker_store.py:184-292 | From admission to dispatch within the payload's time to live. |
| `Lifetimes.IntentLasts` | src/hermes_a2a_gateway/broker_store.py:396-400 | A recorded cancel intent lasts through every later run until the operation is final. |
| `Lifetimes.StepStays` | src/hermes_a2a_gateway/broker_store.py:541-550 | No step deletes or changes a final outcome, a waiting payload or an artifact before its time. |
| `ClientTransactions.CreateNew` | src/hermes_a2a_gateway/client_store.py:123-183 | A new call is taken exactly if valid and there is room; its request can be sent exactly until its time to live is over. |
| `ClientTransactions.CreateAgain` | src/hermes_a2a_gateway/client_store.py:131-139 | A known call gets its own operation back or is refused. |
| `ClientTransactions.MergeShows` | src/hermes_a2a_gateway/client_store.py:236-250 | A snapshot that may replace what is stored is shown from then on; the request is never sent again, and retention starts. |
| `ClientTransactions.MergeKeeps` | src/hermes_a2a_gateway/client_store.py:236-243 | Any other one leaves what is stored; a disagreeing terminal one raises the conflict flag. |
| `ClientTransactions.MergeCursor` | src/hermes_a2a_gateway/client_store.py:207-253 | A refused snapshot changes nothing; an accepted one moves the cursor forward only. |
| `ClientTransactions.ConsumeOutcome` | src/hermes_a2a_gateway/client_store.py:273-282 | A final result read inline is acknowledged and never enqueued afterwards; a claimed enqueue stays. |
| `ClientTransactions.ReleaseOutcome` | src/hermes_a2a_gateway/client_store.py:294-300 | When the inline wait ends, a final result is deliverable at once. |
| `ClientTransactions.InlineOrQueue` | src/hermes_a2a_gateway/client_store.py:273-300 | A result that became final during the wait is returned inline or deliverable, never both. |
| `ClientTransactions.ClaimedDelivery` | src/hermes_a2a_gateway/client_store.py:302-317 | A claimed delivery is not deliverable again, and a restart reports it as unknown. |
| `ClientTransactions.DeliveryEnds` | src/hermes_a2a_gateway/client_store.py:319-328 | How a delivery ends is stored; an unknown end is reported to the broker. |
| `ClientTransactions.PruneOutcome` | src/hermes_a2a_gateway/client_store.py:350-367 | Pruning erases exactly the payloads and results whose time has come, and never state or result id. |
| `ClientTransactions.RestartOutcome` | src/hermes_a2a_gateway/client_store.py:82-98 | A restart leaves nothing in flight and everything else as it was. |
| `Dispatcher.BrokerDispatcher.constructor` | src/hermes_a2a_gateway/broker.py:108-114 | A new process starts in the state its crashed predecessor left. |
| `Dispatcher.BrokerDispatcher.Startup` | src/hermes_a2a_gateway/broker.py:303-305 | Lock and recovery are the machine's recovery step. |
| `Dispatcher.BrokerDispatcher.Step` | src/hermes_a2a_gateway/broker.py:249-285 | With other coroutines at every await, one pass is a run of the machine that reaps exactly the jobs ended at its start, purges, takes cancel intents until the table is full or none is open, polls the rows due if there is room for reads, and claims until the table is full, every waiting operation is held, or a claim failed its operation. |
| `Dispatcher.BrokerDispatcher.ReapAll` | src/hermes_a2a_gateway/broker.py:252-256 | The reaping leaves exactly the jobs that had not ended, and nothing else changes. |
| `Dispatcher.BrokerDispatcher.ReapTable` | src/hermes_a2a_gateway/broker.py:252-256 | Exactly the finished jobs of the table go. |
| `Dispatcher.BrokerDispatcher.FillCancels` | src/hermes_a2a_gateway/broker.py:259-267 | Cancel jobs are added for the oldest intents while there is room, other coroutines running meanwhile; with room left, no intent was open at the last look. |
| `Dispatcher.BrokerDispatcher.StartJobs` | src/hermes_a2a_gateway/broker.py:269-279 | The read jobs started are those of the machine: live keys are skipped and the limit kept. |
| `DispatcherSteps.ReadsStarted` | src/hermes_a2a_gateway/broker.py:269-279 | Reads start exactly for polled rows no job works on, with their saved handles, up to the limit; with room left, for all of them. |
| `Dispatcher.BrokerDispatcher.FillStreams` | src/hermes_a2a_gateway/broker.py:280-285 | Claims are taken while there is room, other coroutines running meanwhile, and it is said why that ended; the loop terminates. |
| `Dispatcher.BrokerDispatcher.ClaimTraced` | src/hermes_a2a_gateway/broker.py:281-285 | One claim: a job more, or every waiting operation held, or the operation found failed. |
| `Dispatcher.BrokerDispatcher.StorePart` | src/hermes_a2a_gateway/broker.py:141-163 | A raw part is stored by exactly its upload; it is not exactly if the part is no good in itself, the ledger has just refused it, or the coroutine was interrupted. |
| `Dispatcher.BrokerDispatcher.StoreParts` | src/hermes_a2a_gateway/broker.py:140-163 | All raw parts are uploaded in order and their ids returned; otherwise the first bad part, the refused upload or an interruption is reported. |
| `Dispatcher.BrokerDispatcher.StoreAll` | src/hermes_a2a_gateway/broker.py:138-163 | The same over all artifacts of a result. |
| `Dispatcher.BrokerDispatcher.SettleResult` | src/hermes_a2a_gateway/broker.py:127-166 | Uninterrupted, a terminal result is settled with its text and exactly its uploaded artifacts, or with the reason of its refusal, unless a part or an upload stood in the way. |
| `Dispatcher.BrokerDispatcher.OnResult` | src/hermes_a2a_gateway/broker.py:190-215 | A result without a handle is ignored; a terminal one always ends the job: settled as it says, found final, failed for the definite error that stood in the way, and given up only for an interruption or another error; any other one leaves the job running with its handle saved. |
| `Dispatcher.BrokerDispatcher.OnFailure` | src/hermes_a2a_gateway/broker.py:200-215 | A definite error after a terminal result fails the operation with it; every other error or interruption gives it up. |
| `Submissions.SettledIsShown` | src/hermes_a2a_gateway/broker.py:164-166 | A result settled by the stream job is shown to every reader, with its text and artifacts, for exactly the result's time to live. |
| `Submissions.HandleStays` | src/hermes_a2a_gateway/broker.py:121-121 | A handle once saved stays through every later step. |
| `Submissions.PartWelcome` | src/hermes_a2a_gateway/broker.py:148-153 | Base64 content within the limit is never an obstacle, and its bytes are what is stored. |
| `Submissions.ObstacleFree` | src/hermes_a2a_gateway/broker.py:138-153 | Nothing is in the way of a result exactly if no part of any artifact is. |
| `Dispatcher.BrokerDispatcher.ObserveResult` | src/hermes_a2a_gateway/broker.py:120-166 | Uninterrupted, the handle is saved first, and a terminal result is then settled as it says or found final; an error is the refused handle, a bad part or a refused upload. |
| `Dispatcher.BrokerDispatcher.Submit` | src/hermes_a2a_gateway/broker.py:179-215 | Results are taken in order up to the first that ends the job, which the first terminal one with a handle does; the handles of all before it are kept, and it is concluded as `OnResult` says; without one the job is given up at the end of the stream. The operation ends terminal, completed only if a result carried that state or a cancel job saw it. |
| `DispatcherSteps.OthersRespect` | src/hermes_a2a_gateway/broker.py:185-197 | Whatever step another coroutine takes keeps the invariant, leaves the submission's job as it was, and is not a read job of its operation. |
| `DispatcherSteps.MeanwhileSubmitting` | src/hermes_a2a_gateway/broker.py:185-197 | The same for any number of steps: what a submission relies on across an await. |
| `DispatcherSteps.MeanwhileLooping` | src/hermes_a2a_gateway/broker.py:257-285 | Any number of other coroutines' steps adds and drops no job: what the loop relies on across an await. |
| `DispatcherSteps.EndedFrom` | src/hermes_a2a_gateway/broker.py:252-256 | A job found ended after a run was ended before it or ended in it. |
| `FreshJobs.FreshlyClaimed` | src/hermes_a2a_gateway/broker.py:280-285 | In every reachable state an operation whose stream job has not begun is running, without handle and without any observed completion. |
| `FreshJobs.SoundStep` | src/hermes_a2a_gateway/broker.py:116-311 | Every step keeps the broker invariant together with that. |
| `DispatcherSteps.CompletionsFrom` | src/hermes_a2a_gateway/broker.py:120-126 | A completion in a run comes from a peer result that carried that state. |
| `EventStream.GapFree` | src/hermes_a2a_gateway/broker.py:436-478 | A stream opened at cursor c has emitted exactly the log entries c+1, c+2, ... in order, across pages, appends, purges and clock changes. |
| `EventStream.PageOrGap` | src/hermes_a2a_gateway/broker_store.py:426-448 | A page continues the log right after the cursor, as long as allowed; a cursor the log has reached can only be refused for a retention gap. |
| `EventStream.PageContiguous` | src/hermes_a2a_gateway/broker_store.py:441-448 | A page holds consecutive numbers without hole. |
| `EventStream.PollCatchesUp` | src/hermes_a2a_gateway/broker.py:448-478 | A poll brings the stream to the end of the log or of the page; a keepalive is sent exactly if nothing is new, and a gap ends the stream with an error frame. |
| `EventStream.EventSource.YieldBatch` | src/hermes_a2a_gateway/broker.py:448-452 | The whole batch is yielded, and the cursor follows. |
| `EventStream.EventSource.Wait` | src/hermes_a2a_gateway/broker.py:453-478 | One poll: next batch, keepalive, or an error frame that closes the stream. |
| `EventStream.ClientSeesLog` | src/hermes_a2a_gateway/client.py:289-309 | A client that reads the text of such a stream from its cursor ingests the log entries one by one and ends at the stream's cursor. |
| `StreamReading.ReadingIsHistory` | src/hermes_a2a_gateway/client.py:289-309 | In every reachable state of the composed system, reading the text of a stream, whatever its payloads hold, is a history of event, pass and close steps: the same pairs ingested in the same order, the same final cursor, closed exactly when the reading stops. |
| `StreamReading.FramesAreSteps` | src/hermes_a2a_gateway/client.py:293-309 | The same frame by frame, from any position of stream and cursor. |
| `PayloadFates.BrokenFate` | src/hermes_a2a_gateway/client.py:293-309 | A frame with a line break in its payload, none of whose pieces is accepted, is read without trace if and only if its text is silently passed; otherwise the reader stops, cursor and ingests unchanged. |
| `PayloadFates.JsonPiecesRefused` | src/hermes_a2a_gateway/client.py:302-302 | Whatever data the lines of a broken JSON payload are assembled to, a strict JSON reader that wants an `operation_id` refuses it. |
| `PayloadFates.LinesCollected` | src/hermes_a2a_gateway/client.py:294-309 | The lines of one event leave the last number, the last kind and all data, or stop at a number that does not parse or at the bound. |
| `PayloadFates.FrameSplit` | src/hermes_a2a_gateway/broker.py:448-451 | The text of a frame splits into the frame with the payload's first line and the payload's remaining lines. |
| `PayloadFates.PassedLater` | src/hermes_a2a_gateway/client.py:301-301 | What is passed at one cursor is passed at every later one. |
| `Deliveries.FrameFate` | src/hermes_a2a_gateway/client.py:289-309 | Every frame, whatever its payload, is ingested, passed without trace, or stops the reader with the cursor unmoved, as the fate of its text says. |
| `Deliveries.StreamRoundTrip` | src/hermes_a2a_gateway/broker.py:448-478 | From the text of any frames, broken payloads included, the reader recovers exactly what the frames deliver, up to the first one that stops it. |
| `SseFrames.ReadEvents` | src/hermes_a2a_gateway/client.py:289-309 | The reading loop equals the reader function, line by line. |
| `Deliveries.DeliverOnce` | src/hermes_a2a_gateway/client.py:297-303 | What is ingested is above the cursor, strictly increasing and from the frames; a refusal leaves the cursor at the last ingest. |
| `Deliveries.DeliverAll` | src/hermes_a2a_gateway/client.py:293-309 | With increasing numbers and no frame that stops the reader, exactly the events above the cursor with one-line payloads are ingested, in order. |
| `BrokenPayloads.PayloadSurvives` | src/hermes_a2a_gateway/client.py:293-309 | A frame comes through exactly when its payload contains no line break of any kind. |
| `BrokenPayloads.SeparatorLosesEvent` | src/hermes_a2a_gateway/client.py:293-309 | A line break of any kind anywhere in the payload loses the event; if no piece is accepted, nothing is ingested, the cursor stays, and the reader stops if and only if the text is not silently passed. |
| `BrokenPayloads.OneBreakFate` | src/hermes_a2a_gateway/client.py:297-309 | A payload with one break is passed if and only if it fits and the line after the break names another kind of event or a number not above the cursor. |
| `BrokenPayloads.PassedForGood` | src/hermes_a2a_gateway/client.py:297-303 | Two frames of which the first is silently passed: the second is ingested and the cursor is its number. |
| `BrokenPayloads.SnapshotLost` | src/hermes_a2a_gateway/broker_store.py:45-46 | The canonical JSON of any completed snapshot with a break in its result text is not recovered; if the text after the break is no field and the truncated JSON is refused, the reader stops with the cursor unmoved. |
| `BrokenPayloads.SnapshotPassed` | src/hermes_a2a_gateway/broker_store.py:45-46 | With `event:x` after the break, the snapshot's frame is passed and the next event moves the cursor past it. |
| `Decimal.DecimalRoundTrip` | src/hermes_a2a_gateway/client.py:304-305 | Reading back the written event number gives the number. |
| `ClientStore.ClientStore.constructor` | src/hermes_a2a_gateway/client_store.py:78-93 | Opening the store performs exactly the restart repairs. |
| `ClientStore.ClientStore.RestoreReceipts` | src/hermes_a2a_gateway/client_store.py:88-93 | Each unknown delivery with a result id gets its receipt; existing receipts stay as they were. |
| `ClientStore.ClientStore.ResolveCall` | src/hermes_a2a_gateway/client_store.py:113-121 | Only the exact native call finds its operation. |
| `ClientStore.ClientStore.Create` | src/hermes_a2a_gateway/client_store.py:123-183 | The method equals the creation transaction; a known call gets its own operation back. |
| `ClientStore.ClientStore.Payload` | src/hermes_a2a_gateway/client_store.py:185-189 | The stored request, unless erased or expired. |
| `ClientStore.ClientStore.AcceptSnapshot` | src/hermes_a2a_gateway/client_store.py:207-253 | The method equals the merge transaction: stored, ignored, flagged or refused, with cursor and receipt. |
| `ClientStore.ClientStore.View` | src/hermes_a2a_gateway/client_store.py:258-292 | It shows the stored row and, when consuming, hands a final result over inline unless an enqueue was claimed. |
| `ClientStore.ClientStore.ClaimDelivery` | src/hermes_a2a_gateway/client_store.py:302-317 | A delivery is claimed if and only if it is deliverable, and written down first. |
| `ClientStore.ClientStore.FinishDelivery` | src/hermes_a2a_gateway/client_store.py:319-328 | The method equals the closing transaction of a delivery, a missing operation or snapshot included. |
| `ClientStore.ClientStore.Prune` | src/hermes_a2a_gateway/client_store.py:350-366 | The loop equals pruning every row. |
| `ClientInvariant.EveryClientStep` | src/hermes_a2a_gateway/client.py:149-391 | Each client step keeps the client invariant and lets rows evolve only as allowed. |
| `ClientInvariant.DeliveredKeeps` | src/hermes_a2a_gateway/client.py:244-253 | The end of an enqueue, accepted, refused or lost, keeps it. |
| `ClientInvariant.ReopenKeeps` | src/hermes_a2a_gateway/client_store.py:78-93 | Restart repair keeps it. |
| `ClientService.ClientService.DeliverReady` | src/hermes_a2a_gateway/client.py:223-253 | Every live operation has exactly one turn, whose own steps are those its ledger calls for, whatever other coroutines do at the awaits. |
| `ClientService.ClientService.DeliverOne` | src/hermes_a2a_gateway/client.py:225-253 | The exact steps for one operation: the look-up of an unknown delivery, once; the delivery and its enqueue's outcome if it is deliverable; nothing otherwise. |
| `ClientService.ClientService.HandOver` | src/hermes_a2a_gateway/client.py:244-253 | A claimed result is enqueued once and exactly the outcome that came back is recorded. |
| `ClientService.ClientService.DispatchPending` | src/hermes_a2a_gateway/client.py:193-213 | Every operation waiting to be sent has exactly one turn, up to the first whose turn fails; each turn is done as its answers and its ledger call for. |
| `ClientService.ClientService.DispatchOne` | src/hermes_a2a_gateway/client.py:195-213 | The exact steps for one operation: an answer about it is ingested; only if the broker does not know it is it posted or marked; it succeeds unless the broker cannot be reached or answers wrongly. |
| `ClientService.ClientService.PostOne` | src/hermes_a2a_gateway/client.py:199-213 | The exact steps for an operation the broker does not know: marked unknown if its payload is gone or expired, marked if its key is lost, otherwise posted once; marked rejected exactly after a refusal for good; an answer about it is ingested. |
| `ClientService.ClientService.PostPayload` | src/hermes_a2a_gateway/client.py:204-213 | The one post of the stored payload, and what each kind of answer leads to. |
| `ClientService.ClientService.FlushReceipts` | src/hermes_a2a_gateway/client.py:215-221 | The unsent receipts are sent one by one up to the first that is not taken; exactly those taken are marked sent. |
| `ClientService.ClientService.RecoverGap` | src/hermes_a2a_gateway/client.py:278-286 | The reader's own steps are the gap, the listing of the live operations, one fetch each up to the first that fails, and the advance to the broker's watermark exactly if none did. |
| `ClientService.ClientService.FetchOne` | src/hermes_a2a_gateway/client.py:181-191 | One fetch ingests an answer about the operation, passes over an unknown one, and ends the recovery otherwise. |
| `ClientService.ClientService.Cancel` | src/hermes_a2a_gateway/client.py:378-391 | A cancel is posted exactly when none was before; in the end it is recorded as requested if an accepted answer about the operation came, else as of unknown outcome. |
| `ClientService.OthersUndisturb` | src/hermes_a2a_gateway/client.py:274-312 | Other coroutines leave a delivery in flight and unknown deliveries alone. |
| `ClientService.MeanwhileWorking` | src/hermes_a2a_gateway/client.py:223-253 | The same for any number of their steps: what the work loop relies on across an await. |
| `ClientService.MeanwhileReading` | src/hermes_a2a_gateway/client.py:274-312 | No number of other steps touches the event reader's state. |
| `ClientService.MeanwhileCancelling` | src/hermes_a2a_gateway/client.py:378-391 | No number of steps loses an operation or a cancel intent. |
| `Base64.RoundTrip` | src/hermes_a2a_gateway/broker_peer.py:99-108 | Decoding what was encoded gives the bytes back. |
| `Base64.PrecheckBounds` | src/hermes_a2a_gateway/broker.py:149-150 | The length test admits every artifact within the limit, and whatever it admits decodes to at most two bytes more. |
| `PeerChunks.ChunksPreserved` | src/hermes_a2a_gateway/broker_peer.py:71-119 | For every cut of a text or byte string into appended chunks, with any other events in between, every yielded result carries the artifact as one part with the whole content so far and the later fields overriding; chunks alone fail only on the size limit. |
| `PeerChunks.BytesPreserved` | src/hermes_a2a_gateway/broker_peer.py:94-119 | The one raw part of the yielded artifact decodes to the whole byte string. |
| `PeerChunks.JoinExact` | src/hermes_a2a_gateway/broker_peer.py:86-110 | Appending a chunk joins the contents and overrides the fields, or reports the size limit exactly when it is exceeded. |
| `PeerChunks.Submit` | src/hermes_a2a_gateway/broker_peer.py:61-119 | The generator equals the fold over the events, and all its results share one non-empty handle. |
| `PeerChunks.Accumulate` | src/hermes_a2a_gateway/broker_peer.py:81-112 | The artifact loop equals the fold, with the first error. |
| `PeerChunks.ExtendParts` | src/hermes_a2a_gateway/broker_peer.py:84-110 | The part loop equals the fold, with the first error. |
| `Limiter.GatewayContextLimiter.Admit` | compat/hermes/hermes-a2a-compat.patch:175-194 | Admission depends only on the full history: fewer than 5 in the last 60 seconds; a delay lies in 1..60 and is the least that helps. |
| `Limiter.GatewayContextLimiter.Prune` | compat/hermes/hermes-a2a-compat.patch:178-183 | Pruning every bucket preserves the meaning of all of them. |
| `Limiter.WindowBound` | compat/hermes/hermes-a2a-compat.patch:165-170 | No 60-second window ever holds more than 5 admissions of a key. |
| `Limiter.LeastDelay` | compat/hermes/hermes-a2a-compat.patch:186-187 | A retry without other admissions is refused exactly before the delay has passed. |
| `TaskStore.TaskStore.Create` | compat/hermes/upstream/protocol.py:324-329 | A new record is appended; an existing id is replaced in place. |
| `TaskStore.TaskStore.SetState` | compat/hermes/upstream/protocol.py:331-334 | Every watcher stays resolvable unless a watched record is made terminal this way. |
| `TaskStore.TaskStore.Complete` | compat/hermes/upstream/protocol.py:370-383 | A live record completes, its watchers get exactly this outcome, at most 500 terminal records remain, and terminal records never change. |
| `TaskStore.TaskStore.Watch` | compat/hermes/upstream/protocol.py:385-394 | A future handed out is resolved at once or registered under a live record. |
| `TaskStore.TaskStore.FailOrphans` | compat/hermes/upstream/protocol.py:410-416 | Exactly the stale records fail and are reported, no other record changes between live and dead. |
| `TaskStore.TaskStore.Trim` | compat/hermes/upstream/protocol.py:418-421 | The loop removes the oldest terminal records beyond 500. |
| `TaskStore.TaskStore.Serve` | compat/hermes/upstream/protocol.py:324-421 | Over every sequence of the adapter's calls each future handed out is resolved or registered under a live record, results once given stay, and terminal records never change unless their id is created anew. |
| `TaskStore.TaskStore.Call` | compat/hermes/upstream/protocol.py:324-416 | One call keeps that; every record comes unchanged, from a live one, or is the one created. |
| `TaskStore.StrandedWatcher` | compat/hermes/upstream/protocol.py:331-334 | A terminal state set on a watched record leaves its watcher under a dead record. |
| `TaskStore.DropsOldest` | compat/hermes/upstream/protocol.py:418-421 | What trimming leaves is the live records of a prefix and the untouched rest. |
| `TaskStore.TrimKeeps` | compat/hermes/upstream/protocol.py:418-421 | Trimming keeps every live record and at most 500 terminal ones. |
| `StderrScan.StderrReader.ReadAll` | src/hermes_a2a_gateway/ssh_tunnel.py:329-336 | For every chunking the flag is set exactly when the whole stream contains the confirmation. |
| `StderrScan.StderrReader.Feed` | src/hermes_a2a_gateway/ssh_tunnel.py:330-336 | One chunk keeps the flag exact for the stream so far. |
| `StderrScan.TailSuffices` | src/hermes_a2a_gateway/ssh_tunnel.py:332-336 | Searching the kept tail plus the new chunk finds whatever the whole stream newly contains. |

## Left out

- HTTP, TLS, authentication, ASGI and database plumbing: requests are steps that may happen, fail, be lost or repeated.
- Database failures inside the dispatcher: a job whose transaction fails stops the process, which is the crash step.
- `aclose` of the dispatcher: its effects are give-up steps of the stream jobs followed by the crash step.
- JSON, SHA-256, Fernet and UUID generation: serialized texts, sizes, digests and identifiers are arguments or arbitrary.
- Error messages: an error is its code; the message text that goes with a code is not kept.
- Clock readings within one transaction: each transaction reads its time once.
- Content checks of operation inputs (text/plain, valid UTF-8) are two flags stored with an artifact; prompt and artifact
  sizes are lengths in the model's characters.
- Blank: the whitespace a prompt is stripped of is space, tab, newline and carriage return.
- Parse: event numbers are ASCII decimals; signs, underscores and other digits that Python's `int` accepts are refused.
- Split: the characters at which the HTTP library breaks lines are those of Python's `str.splitlines`; the library itself
  is not part of this model.
- Base64 decoding follows the strict mode of Python 3.11's `binascii`.
- `Dispatcher.BrokerDispatcher.Await`, `Dispatcher.BrokerDispatcher.Pause`, `ClientService.ClientService.Await` and the
  other awaiting methods stand for the event loop: their contracts say what other coroutines may do, and lemmas show by
  induction that every run of other steps obeys them.
- A transaction whose await was interrupted may still commit in its thread after the coroutine gave up: while the job is
  in its table such commits are steps of the broker machine, and covered by the theorems over all runs, but not part of
  `Dispatcher.BrokerDispatcher.Submit`. A commit of `save_handle` or `finish` (src/hermes_a2a_gateway/broker.py:121) that
  comes only after the loop has reaped the ended job is no step of the machine.
- The read and cancel jobs (`_reconcile`, `_cancel`) are steps of the broker machine, not methods of the dispatcher class.
- Native delivery, the SSH process, diagnostics, settings, command line, MCP facade and agent adapters.
- ClaimOrder: compares creation times only; the `operation_id` tie-break is in `ClaimOrders.ClaimOrderIff`.
- Complete: removing the watchers and resolving their futures is one step, while the source resolves them after it has
  released the lock (compat/hermes/upstream/protocol.py:378-382).
- That the client's background recovery fetches a passed result after some time: answers are steps that may happen, and
  nothing is claimed about when.
- ReadingIsHistory: error frames are taken to be one line, since the broker's codes and messages are fixed texts.
- Strict: of the JSON reader and of `accept_snapshot` only what is needed is stated, that strings are closed and free of
  control characters and that a member name with an underscore is present.
- `TaskStore` push configurations, listing and rendering; the wall-clock `retry_at` text of the limiter.
- The client's snapshot-conflict flag, monotonicity of snapshots among accepted and running, and the bound on the
  client's pending count are not claimed: the code does not give them.
