# RelayHub, verified

A Dafny model of RelayHub's durable delivery protocol (`rust/src/delivery.rs`, `events.rs`,
`outbox.rs`, `responses.rs`, `gateway.rs` with the triggers in `rust/migrations`), its pull queues
(`queue_public.rs`), its presence index (`presence.rs`), its channel history (`realtime.rs`) and the
calendar arithmetic of its object-store signing (`object_store.rs`).

`dafny verify dfyconfig.toml` checks everything.

## How it is built

**Delivery protocol.** `Tables` holds the rows and the two triggers, `Transactions` one function per
transaction, `Stores` the same transactions as methods of a class that updates its tables in place,
each proved equal to its function. `Runs` turns transactions, broker events and frame admissions into
one step relation; a run is any interleaving of them. `Ledger`, `Invariant` and `Steps` carry the
invariant through every step, `Traces` says what a step may do to one delivery, and `Theorems` states
the promises for every run. `Effects` says of each operation when it acts and what it leaves, on the rows
before and after and without its own branches. `Gateways` and `Sockets` put the claim loop, the undo paths, the send loop
and the agent's frames on top.

**Pull queues.** `Queues` has the statements and handlers, `QueueRuns` the steps and the invariant,
`QueueTheorems` the promises, `QueueEffects` what each handler does to the rows, `QueueRetention` the leases against retention, `QueueStores` the handlers as
methods with their loops.

**Presence, history, calendar** are one module each.

Modelling decisions:

- All tables keyed by a delivery id are one record (`Job`), so "one outbox row per delivery" is part of
  the shape. Rows of other tables are maps.
- A committed transaction is one atomic step. It takes three clock readings: `now()` at BEGIN, the
  reading taken with the row lock, and the reading of the final write; the clock never runs backwards
  between commits, while BEGIN may lie before other commits. An error before COMMIT changes nothing.
  Queue transactions take one reading per SQL statement.
- UUIDs and receipts are fresh: a ghost set records every one drawn. A receipt stands for its digest.
- Presence answers, drain observations, broker answers, send outcomes, rows other transactions hold
  locked, and query results whose order the database chooses are parameters; the theorems hold for all
  of them.
- The broker keeps a message until it is acknowledged or older than the retention period
  (`rust/src/host.rs`), measured on the database clock. Publishing may be lost, stored without the
  answer or the `sent_at` commit, or stored and marked.
- Only the agent path writes deliveries: callbacks and the legacy stream are absent.

## What the code does not promise

Where a natural property fails, the code is kept and the exact condition is proved.

- **Claims can be stranded.** `pending_inner` returns a failed presence read at three places without
  undoing the claims it holds (`rust/src/gateway.rs:210`, `:223`, `:236`). `PendingInner` proves that a call
  leaves leases behind if and only if some turn the loop comes to strands them (`CallStrands`);
  `StrandingHappens` reaches such a call by a run. The leases recover when they expire.
- **The presence index drops a key up to a second early.** Keys expire to the millisecond, scores are
  whole seconds. `ListedExactly` gives the condition, `LastSecondGap` an instance.
- **An extended queue lease can outlive retention.** `extend` caps at the total lease only.
  `StaysTimelyExactly` proves that a lease stays within retention however the run goes on if and only if
  its cap lies within, or it has run out there; `ExtensionOutlives` is a run in which one does not.
- **Crossed publishes lose history.** Number, append and trim are separate commands; when two appends
  cross, a reader can skip a stored message. `IncreasingExactly` says that the list stays in order if and
  only if appends come in number order, `PagingExact` when pages return the whole list once and in order,
  `CrossedAppends` is an instance.

`complete_response` authorises against `app_id` where the other agent calls use `target_app_id`. In every
reachable state the two agree (`StageGrantedExactly`).

## Model

| member | source | states |
|---|---|---|
| Runs.StepKeepsInv | rust/src/delivery.rs:131-512 | Every step of the machine keeps the invariant, including dispatch with a lost answer and message ageing |
| Runs.RunInv | rust/src/delivery.rs:131-512 | The invariant holds in every state of every run |
| Traces.RunContinues | rust/migrations/0002_events.sql:64-108 | What one step may do to a delivery: identity, terminal state, results and candidates are kept, tokens appear only by a claim on it |
| Traces.TerminalForever | rust/migrations/0002_events.sql:64-108 | A terminal delivery keeps its state and time for ever |
| Theorems.NoLostWork | rust/src/outbox.rs:81-119 | Open work within retention has an unsent outbox row or an unacknowledged broker message, in every state of every run |
| Theorems.ReconcileReportsTerminal | rust/src/delivery.rs:447-471 | Reconcile answers true if and only if the committed state is terminal |
| Theorems.MessageGoneMeansDone | rust/src/gateway.rs:277-303 | A broker message disappears only when its delivery is terminal or its event expired |
| Theorems.AttemptLedger | rust/src/delivery.rs:486-512 | Attempt rows are exactly 1..count, at most five, all finished but possibly the last, success only on the last of a succeeded delivery |
| Theorems.DeadLetterMeansFiveFailures | rust/src/delivery.rs:486-512 | A dead letter has exactly five finished unsuccessful attempts |
| Theorems.ClaimThenRollback | rust/src/delivery.rs:248-281 | Claim then rollback restores attempts, count, outbox, response, quotas and every other delivery |
| Theorems.RetrySpacing | rust/src/delivery.rs:495-507 | Attempt n starts no earlier than attempt n-1 finished plus its delay, whatever was rolled back between |
| Theorems.Fencing | rust/src/delivery.rs:85-95 | A lease that settles, renews or answers was granted earlier, is the newest, was not ended since and is live |
| Theorems.SettlesOnce | rust/src/delivery.rs:282-320 | Each lease settles at most once in a run |
| Theorems.SucceedsOnce | rust/src/delivery.rs:282-320 | Each delivery succeeds at most once and stays succeeded |
| Theorems.AgentHoldsAtMostSixteen | rust/src/delivery.rs:140-236 | At every moment of every run an agent holds at most sixteen live leases over all workspaces and gateways |
| Theorems.LeaseClosedForm | rust/src/delivery.rs:321-352 | While in flight a lease ends at min(last grant or renewal + 60 s, attempt start + 300 s, event expiry) |
| Theorems.HeartbeatNeverShortens | rust/src/delivery.rs:343-350 | A renewal never moves the end of a lease backwards |
| Theorems.LiveLeaseIsRetained | rust/src/delivery.rs:321-352 | A live lease implies a retained event and an attempt younger than 300 s |
| Theorems.NeverCancelsSentWork | rust/src/responses.rs:182-196 | A delivery any of whose frames was accepted by a socket is never cancelled afterwards |
| Theorems.EventGenerations | rust/src/delivery.rs:383-445 | An event's deliveries are numbered 1..n without gap or repeat and only the newest can be open |
| Theorems.IdempotentAcceptance | rust/src/events.rs:174-282 | Successes under one workspace, application and key return the same ids and carried the same payload; another payload changes nothing and is a conflict if otherwise publishable |
| Theorems.QuotaConservation | rust/migrations/0002_events.sql:64-108 | A workspace's counters are exactly its open deliveries and their bytes, within the caps |
| Theorems.ResultComesFromWinner | rust/migrations/0004_endpoints.sql:31-71 | A stored result is the candidate of the attempt that succeeded; answered means before the deadline |
| Theorems.ResultsAreFinal | rust/src/responses.rs:88-173 | Results are final and staged candidates immutable |
| Theorems.ClaimGrantedExactly | rust/src/delivery.rs:131-246 | In every run a claim is granted if and only if the row is open, due and in time, presence agrees and the agent is below its bound |
| Theorems.SettleAcceptedExactly | rust/src/delivery.rs:282-320 | In every run a settlement is accepted if and only if its lease is the held one, is the agent's and outlives the final write |
| Theorems.StageGrantedExactly | rust/src/responses.rs:88-173 | In every run a response is staged if and only if its lease is the held one of the agent's own application and it does not contradict an earlier candidate |
| Theorems.AcceptedExactly | rust/src/events.rs:174-282 | In every run an event is accepted if and only if it is publishable and either repeats the payload stored under its key or fits beside the workspace's open deliveries |
| Theorems.ReplayGrantedExactly | rust/src/delivery.rs:383-445 | In every run a replay is granted if and only if an operator asks, the event is retained, all its deliveries are terminal and the workspace has room |
| Effects.ReconcileActs | rust/src/delivery.rs:447-471 | In every run reconciling closes a lease that ran out as lease_expired, to dlq on attempt five and else to retry_wait after its delay; past retention it expires open work; every other delivery keeps its whole record |
| Effects.ClaimActs | rust/src/delivery.rs:131-246 | In every run a claim opens exactly the next attempt for 60 s or until retention, or cleans up an expired, overslept or abandoned delivery and answers gone or conflict, or changes nothing with the stated error |
| Effects.RollbackActs | rust/src/delivery.rs:248-281 | In every run a rollback is granted exactly for the agent's unanswered current lease and strikes only that attempt |
| Effects.SettleActs | rust/src/delivery.rs:282-320 | In every run an accepted settlement succeeds the delivery with its answer, or without success leaves retry_wait or dlq with a retryable failure; any other changes nothing |
| Effects.HeartbeatGrantedExactly | rust/src/delivery.rs:321-352 | In every run a renewal is granted if and only if the lease is the agent's held and live one; row and attempt then end at the same least of the three caps and nothing else moves |
| Effects.StageActs | rust/src/responses.rs:88-173 | In every run staging keeps the bytes under its lease and changes nothing else |
| Effects.BeginWaitActs | rust/src/responses.rs:175-179 | In every run a wait sets the deadline of an open synchronous response without one, and nothing else |
| Effects.ExpireWaitActs | rust/src/responses.rs:182-196 | In every run an open response past its deadline is timed out, the delivery is cancelled if and only if it is also expire_pending and never claimed, and nothing else changes |
| Effects.AcceptActs | rust/src/events.rs:174-282 | In every run a new event is stored with endpoint, size and a week of retention beside one fresh delivery whose response is open under the endpoint's policy; a repeated or refused one stores nothing |
| Effects.ReplayActs | rust/src/delivery.rs:383-445 | In every run a granted replay adds one fresh delivery numbered above all others of its event; a refused one changes nothing |
| Effects.PolicyIsEndpoints | rust/migrations/0004_endpoints.sql:37-45 | In every state of every run each delivery's response policy is that of its event's stored endpoint |
| Effects.DispatchActs | rust/src/outbox.rs:81-119 | In every run what reached the broker is in the stream and only a confirmed publication marks its outbox row |
| Effects.OutboxFollows | rust/migrations/0002_events.sql:64-108 | In every state an ended delivery's outbox row is either sent or discarded, an open one's is not discarded |
| Effects.SelectionsExact | rust/src/outbox.rs:81-119 | In every state the publisher's and the sweep's selections are exactly the open unpublished and the open unretained deliveries |
| Effects.SweepEnds | rust/src/events.rs:285-311 | A sweep expires exactly the listed open deliveries past retention and keeps every other record |
| Stores.Store.ClaimDeliveryOwned | rust/src/delivery.rs:131-246 | The claim performs exactly the claim step and keeps the invariant |
| Stores.Store.RollbackClaim | rust/src/delivery.rs:248-281 | The rollback performs exactly the rollback step and keeps the invariant |
| Stores.Store.SettleDelivery | rust/src/delivery.rs:282-320 | The settlement performs exactly the settle step and keeps the invariant |
| Stores.Store.HeartbeatLease | rust/src/delivery.rs:321-352 | The renewal performs exactly the renewal step and keeps the invariant |
| Stores.Store.ReconcileDelivery | rust/src/delivery.rs:447-471 | The reconciliation performs exactly its step and keeps the invariant |
| Stores.Store.ReplayDelivery | rust/src/delivery.rs:383-445 | The replay performs exactly the replay step and keeps the invariant |
| Stores.Store.FindReceipt | rust/src/events.rs:216-224 | The lookup finds a receipt if and only if the key has one |
| Stores.Store.AcceptEvent | rust/src/events.rs:174-282 | The acceptance performs exactly the accept step and keeps the invariant |
| Stores.Store.ExpireDeliveries | rust/src/events.rs:285-311 | The sweep loop expires exactly the selected deliveries, leaves the others alone and counts them |
| Stores.Store.DispatchOutbox | rust/src/outbox.rs:81-119 | The dispatch loop is a run of publications in creation order, counts what it marked and stops early only when no row is free |
| Stores.Store.BeginWaiting | rust/src/responses.rs:175-179 | Starting a wait performs exactly its step and keeps the invariant |
| Stores.Store.ExpireWaiting | rust/src/responses.rs:182-196 | Ending a wait performs exactly its step and keeps the invariant |
| Stores.Store.StageResponse | rust/src/responses.rs:88-173 | Staging performs exactly its step and keeps the invariant |
| Stores.Store.CompleteResponse | rust/src/responses.rs:88-173 | Stage then settle: on success the delivery succeeded and its result is the given bytes; otherwise the error is that of the step that failed |
| Gateways.RollbackSucceeds | rust/src/delivery.rs:248-281 | Undoing a held, unsent claim always succeeds and touches that delivery only |
| Gateways.Gateway.Drain | rust/src/gateway.rs:58-70 | Deadlines outside 1..30000 ms are refused; the first accepted signal wins |
| Gateways.Gateway.RollbackFrames | rust/src/gateway.rs:128-139 | Every listed claim is undone with its ledger restored, every other delivery is as it was |
| Gateways.Gateway.ClaimTurn | rust/src/gateway.rs:188-247 | One turn keeps the frames exactly what the call holds; leases stay behind if and only if the turn strands them; it goes on, halts or quits with its error exactly as specified |
| Gateways.Gateway.PendingInner | rust/src/gateway.rs:174-258 | A returned batch is exactly what the call holds, distinct and within both limits; drain empties it, and without a drain it is exactly what the turns collected; leases stay behind if and only if some turn the loop comes to strands them |
| Gateways.QuietTurnTakes | rust/src/gateway.rs:193-234 | In every state of every run a turn without drain or loss of ownership on a grantable delivery adds its frame |
| Gateways.StrandingHappens | rust/src/gateway.rs:205-214 | A run reaches a world in which a call strands its claim, and the lease is still held afterwards |
| Gateways.GrantStrands | rust/src/gateway.rs:205-214 | Every granted claim whose next presence read fails is stranded and stays leased |
| Gateways.Gateway.ReconcileMessage | rust/src/gateway.rs:277-330 | A message leaves the stream only when its delivery is terminal; otherwise each owning gateway is notified exactly once; answer and new state are fixed by the message, the reconciliation, the owners and the acknowledgement |
| Sockets.Session.SendFrames | rust/src/gateway.rs:525-550 | The batch splits into sent, undone and at most one doubtful frame; a frame that may have been sent is never undone; capacity is kept |
| Sockets.Session.Scan | rust/src/gateway.rs:494-552 | A scan keeps the advertised capacity, tracks every lease it leaves but a doubtful one, sends what its claim call collected, undoes everything on drain, and strands leases exactly when its claim call does |
| Sockets.DroppedIsDead | rust/src/gateway.rs:494-512 | In every state of every run a request the scan drops can no longer be settled |
| Sockets.Session.Receive | rust/src/gateway.rs:561-579 | An acknowledgement or response frees its slot exactly on success and then its delivery succeeded; anything unmatched changes nothing |
| Sockets.Session.HeartbeatFrame | rust/src/gateway.rs:580-587 | A heartbeat renews exactly a lease the session tracks |
| Queues.SelectIsTop | rust/src/queue_public.rs:561-562 | The selection is in pull order and before everything left out, and complete below the limit |
| Queues.SelectUnique | rust/src/queue_public.rs:561-562 | Any sequence so described is the selection |
| Queues.Room | rust/src/queue_public.rs:543-556 | A pull stays within request, batch and in-flight limits, reaches one of them, and takes nothing exactly when the queue is full |
| QueueRuns.SettleBatchOk | rust/src/queue_public.rs:615-642 | A batch is refused as a whole exactly for a malformed item; accepted receipts end on no row |
| QueueRuns.ExtendBatchOk | rust/src/queue_public.rs:656-668 | A batch is refused as a whole exactly for a malformed item; extensions only move lease ends forward |
| QueueRuns.PullGives | rust/src/queue_public.rs:523-592 | A pull on an open queue hands out exactly its selection, or changes nothing if a selected payload is unreadable |
| QueueRuns.StepOk | rust/src/queue_public.rs:523-954 | Every operation keeps the invariant and moves rows only forward |
| QueueTheorems.RunInv | rust/migrations/0014_queue_runtime.sql:29-32 | In every state of every run a receipt is stored exactly on in-flight rows, receipts are unique and the log is in order |
| QueueTheorems.VoidForever | rust/src/queue_public.rs:546-577 | A receipt that is on no row is never on a row again |
| QueueTheorems.ReceiptFate | rust/src/queue_public.rs:546-577 | From any point of a run, a receipt's row carries that very lease, possibly extended, or the receipt is dead for good |
| QueueTheorems.StaleReceiptRefused | rust/src/queue_public.rs:594-670 | A receipt from before a new lease, a replay or a deletion is always answered as invalid, by settle and extend |
| QueueTheorems.ReplayStartsOver | rust/src/queue_public.rs:920-936 | A replay moves to a later generation and every receipt handed out before is dead from then on |
| QueueTheorems.OncePerBatch | rust/src/queue_public.rs:615-642 | A receipt is accepted at most once in a batch |
| QueueTheorems.SettlesOnce | rust/src/queue_public.rs:594-643 | A receipt is accepted at most once in a run |
| QueueTheorems.SettleActs | rust/src/queue_public.rs:629-642 | On any consistent queue a settlement is accepted if and only if its receipt is live, touches only that delivery, and leaves the row with the stated status, delay and reason |
| QueueTheorems.BatchItemActs | rust/src/queue_public.rs:615-642 | In every run each item of an accepted batch is answered as a settlement of its own on the consistent queue its predecessors left |
| QueueTheorems.ExtendActs | rust/src/queue_public.rs:657-667 | On any consistent queue an extension acts if and only if its receipt is live, and moves only that lease's end, by the asked time or to the cap |
| QueueTheorems.ExtendItemActs | rust/src/queue_public.rs:656-668 | In every run each item of an accepted batch acts on the consistent queue its predecessors left |
| QueueTheorems.SweepExact | rust/src/queue_public.rs:546-549 | A sweep ends exactly the leases that ran out, dead-letters exactly exhausted or unretained rows and renumbers nothing |
| QueueTheorems.PullTerms | rust/src/queue_public.rs:563-577 | Every item is leased one attempt further, under the receipt drawn for it, until the first of visibility, policy limits, total lease and retention, with its cap at the total lease |
| QueueTheorems.LeaseOrigin | rust/src/queue_public.rs:567-589 | Every lease was handed out by an earlier pull for this row and attempt and has only been extended since |
| QueueTheorems.LeaseWithinTotal | rust/src/queue_public.rs:645-670 | No sequence of extensions moves a lease past its start plus the total lease of its policy |
| QueueTheorems.QueueBounds | rust/src/queue_public.rs:544-577 | Attempts and leases in flight never exceed the most generous policy read; available rows are strictly below the attempt limit |
| QueueTheorems.AckedIsFinal | rust/src/queue_public.rs:594-643 | An acknowledged delivery is never touched again |
| QueueTheorems.AttemptsAdvance | rust/src/queue_public.rs:920-936 | Generation and attempt only move forward |
| QueueTheorems.LeasesIncrease | rust/src/queue_public.rs:567-577 | Successive leases of a delivery have strictly increasing generation and attempt |
| QueueTheorems.OnlyDeadLettersLeave | rust/src/queue_public.rs:938-954 | A delivery leaves the queue only by deleting it as a dead letter |
| QueueTheorems.QueueLedger | rust/migrations/0014_queue_runtime.sql:43-53 | The log of a generation holds exactly the leases 1..attempts |
| QueueTheorems.PullServesFront | rust/src/queue_public.rs:561-589 | A pull hands out the front of the ready rows, in pull order |
| QueueEffects.PullActs | rust/src/queue_public.rs:523-592 | In every run a pull returns servable rows in pull order and passes one over only when the request, the batch, the ceiling or the leases in flight are exhausted; every row it does not hand out is swept, and on error nothing changes |
| QueueEffects.SettleRefusedExactly | rust/src/queue_public.rs:594-628 | In every run a settlement request is refused if and only if it is too long, the subscription is gone or an item is malformed, and then changes nothing |
| QueueEffects.ExtendRefusedExactly | rust/src/queue_public.rs:645-660 | In every run an extension request is refused if and only if it is too long or an item is malformed, and then changes nothing |
| QueueEffects.ReplayActs | rust/src/queue_public.rs:920-936 | In every run a replay offers exactly the listed dead letters again at once, in their next generation, and keeps every other row |
| QueueEffects.DeleteActs | rust/src/queue_public.rs:938-954 | In every run a deletion removes exactly the listed dead letters and their log |
| QueueRetention.OnlyExtensionsOutlive | rust/src/queue_public.rs:664-665 | In every run a lease past retention was carried there by an extension, and its cap lies past retention |
| QueueRetention.RunOutStays | rust/src/queue_public.rs:664-665 | In every run a lease that has run out is never changed while it lasts |
| QueueRetention.Outlive | rust/src/queue_public.rs:645-670 | Every live lease capped past retention can be carried past it by extensions alone |
| QueueRetention.StaysTimelyExactly | rust/src/queue_public.rs:574-665 | A lease stays within retention in every continuation of a run if and only if it is capped there or has run out there |
| QueueRetention.ExtensionOutlives | rust/src/queue_public.rs:664-665 | A run in which a lease outlives its delivery's retention |
| QueueStores.PullQueue.PullMessages | rust/src/queue_public.rs:523-592 | The pull handler performs exactly the pull step and keeps the invariant |
| QueueStores.PullQueue.SettleMessages | rust/src/queue_public.rs:594-643 | The settle loop performs exactly the settle step, committing all items or none |
| QueueStores.PullQueue.ExtendLeases | rust/src/queue_public.rs:645-670 | The extend loop performs exactly the extend step, committing all items or none |
| QueueStores.PullQueue.ReplayDeadLetters | rust/src/queue_public.rs:920-936 | Replay revives exactly the listed dead letters with a new generation |
| QueueStores.PullQueue.DeleteDeadLetters | rust/src/queue_public.rs:938-954 | Deletion removes exactly the listed dead letters and their log |
| Presences.RunOk | rust/src/presence.rs:70-119 | After any operations indexed agents have keys ending in the second of their score, and agents missing from the index are in their last second |
| Presences.ListedExactly | rust/src/presence.rs:108-119 | An agent is listed if and only if its key is visible and the clock has not entered the second in which it ends |
| Presences.IndexAgrees | rust/src/presence.rs:108-119 | The index agrees with the keys if and only if no visible key is in its last second |
| Presences.LastSecondGap | rust/src/presence.rs:70-77 | A visible owner that is not listed |
| Presences.ListedByTenure | rust/src/presence.rs:70-119 | After any operations owner and listing are determined by the plain replay |
| Presences.SupersededIsPowerless | rust/src/presence.rs:89-107 | Once an agent is not a former session's and that session never registers again, striking all its heartbeats and removals from any history changes nobody's owner or listing |
| Presences.Presence.RegisterOwner | rust/src/presence.rs:70-77 | Registration performs exactly its script and keeps the index consistent |
| Presences.Presence.HeartbeatOwner | rust/src/presence.rs:89-100 | A heartbeat conflicts exactly for a non-owner and keeps the index consistent |
| Presences.Presence.RemoveOwner | rust/src/presence.rs:101-107 | Removal performs exactly its script and keeps the index consistent |
| Presences.Presence.Owners | rust/src/presence.rs:108-119 | The listing loop returns each visible owner with a whole second left exactly once |
| Histories.ReadPage | rust/src/realtime.rs:1389-1418 | The read loop returns the first messages above the cursor up to the limit, and the last one's cursor |
| Histories.PagingExact | rust/src/realtime.rs:1376-1425 | Pages return the whole list once and in order if and only if every page boundary is a cut |
| Histories.AnyPagingComplete | rust/src/realtime.rs:1376-1425 | From any cursor and with any limits later messages come once, in order, and all of them after enough pages |
| Histories.SinglePagesNeedOrder | rust/src/realtime.rs:1376-1425 | With one-message pages only an increasing list is read completely |
| Histories.NumbersStayDistinct | rust/src/realtime.rs:1945-1967 | Numbers stay distinct under every interleaving of publishers |
| Histories.IncreasingExactly | rust/src/realtime.rs:1945-1967 | The list is increasing all along if and only if every append comes in the order of its number |
| Histories.CrossedAppends | rust/src/realtime.rs:1945-1967 | Two crossed appends hide a stored message from a reader |
| Histories.History.Publish | rust/src/realtime.rs:1945-1967 | However many of the three commands take effect, numbers stay distinct and the list increasing; without failures it holds the last thousand consecutive numbers |
| Histories.SequentialPaging | rust/src/realtime.rs:1945-1967 | Written by one publisher at a time the list is increasing, within a thousand messages, and read completely by pages of any size |
| Histories.PageIsNext | rust/src/realtime.rs:1376-1425 | Without failures a page from any cursor is the next run of consecutive numbers and is empty only when nothing newer exists |
| Histories.NothingSkipped | rust/src/realtime.rs:1376-1425 | However single commands and reads interleave, with appends in number order: from any cursor a reader sees each number appended up to its cursor once and in order, except those the thousand-message limit had dropped |
| Histories.EmptyPageMeansCaughtUp | rust/src/realtime.rs:1376-1425 | In the same runs a page is empty if and only if nothing newer was ever appended |
| Histories.PageNumbers | rust/src/realtime.rs:1389-1418 | A page of an increasing list holds exactly the stored numbers between the cursor and its last |
| Calendar.CalendarStep | rust/src/object_store.rs:282-293 | On every day, past or future, the code names a real Gregorian date and the next day's date follows it |
| Calendar.DayNumberOfCivil | rust/src/object_store.rs:282-293 | Counting the days of the named date gives the day back |
| Calendar.CivilOfDayNumber | rust/src/object_store.rs:282-293 | Every valid date is named for the day it counts to |
| Calendar.AmzTimeReadsBack | rust/src/object_store.rs:270-281 | Every timestamp reads back to its instant and starts with its credential date |

## Left out

- The legacy stream claim and settle, the callback worker, `publish_legacy` and `admin.rs::replay_one`: they write deliveries under other rules, and the ledger, lease and generation claims are about the agent path.
- `queue_admin.rs`: the same SQL as the public queue handlers.
- Queue `ordering_mode`, deduplication keys, pause, drain and policy edits: policies are parameters of each step; a pull does not order by key.
- Subscription matching when an event is accepted: queue arrivals are steps of their own.
- Response audit rows, the polling of `wait`, HTTP mapping, header and size validation of responses.
- The two-second limits on draining and sending, task cancellation, and the timers that trigger scans, authentication refreshes and presence timeouts.
- Steps of other sessions between the turns of one claim loop or the frames of one send loop: `PendingInner` and `SendFrames` treat their own steps as consecutive, while the run theorems cover every interleaving.
- The order and limit of the pending query.
- 64-bit and 32-bit overflow, which none of the modelled quantities reaches.
- Database errors in the middle of a claim, a rollback or a query, and commits whose outcome is unknown to the caller.
- Hashing, JSON, base64, subjects and Redis key names: taken as injective.
- Realtime audience filters, recovery and presence beyond the history list; only messages for everyone enter it.
- S3 canonical requests and signatures.
