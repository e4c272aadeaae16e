# Rush delivery engine: a verified model

A Dafny model of the parts of the delivery engine that have to survive concurrency, crashes and
redelivery: the transactional outbox and its relays, the order lifecycle, rider assignment, the Kafka
consumer loop and the sliding-window rate limiter. `dafny verify dfyconfig.toml` checks all of it.

## How it is built

**One step system.** `System.dfy` holds the state that order-service, assignment-service and rider-service
share: the tables `orders`, `riders`, `order_events` and `outbox` with its serial ids, the open transactions
with the rows they lock, the relays' in-flight batches and those of dispatches whose transaction the database has
ended, the Kafka log with the writes still under way, and the assignment consumer's place in its topic. An `Action` is one SQL statement, one publish, one fetch or offset
commit, or one failure of one process. `Step` is total: an action that is not possible leaves the state
alone, so `Exec(acts)`, for all `acts`, is exactly the set of reachable states, and a theorem about
`Exec(acts)` is a theorem about every interleaving of any number of writers, deliveries and relays.
`journal`, `failed`, `retries` and the reader's `handled` and `failed` are history (all commits in order; rows of
dispatches given up; writes beyond one per publish; offsets whose handler returned nil, or an error) and influence
no step.

| action | what it is | source |
|---|---|---|
| `BeginCreate` | insert of a new order, not yet visible | internal/order/repository.go:48-57 |
| `ReadOrder` | unlocked read and lifecycle check of Transition | internal/order/service.go:54-60 |
| `Deliver` | the handler starts on an order.placed message; the geo search may return any list, or fail | internal/assignment/consumer.go:18-26 |
| `TryRider` | guarded rider UPDATE for the next candidate | internal/assignment/service.go:168-177 |
| `LockOrder` | the order UPDATE of each transaction, waiting for the row lock | internal/order/repository.go:125-133, internal/assignment/service.go:107-117 and 179-183 |
| `DrawRow` | outbox insert, drawing a serial id | internal/outbox/outbox.go:50-53 |
| `CommitTx` | order, rider, audit and outbox rows appear together | internal/order/repository.go:152, internal/assignment/service.go:128 and 201 |
| `FailTx`, `Crash` | an error in a transaction, the death of its process | internal/assignment/service.go:69-72 and 89-92 |
| `RegisterRider`, `SetRider` | rider inserts and status writes | internal/rider/repository.go:21-36 and 53-64 |
| `Select`, `Publish`, `MarkSent`, `CrashRelay` | the statements of one dispatch; a publish, acknowledged or failed, may write its message any number of times, since the writer retries | internal/outbox/relay.go:76-135, pkg/kafka/producer.go:22-30 |
| `LoseTx`, `Stray` | the database ends a relay's transaction and with it the row locks; the publish loop, which does not touch the database, goes on with the rest of its batch | internal/outbox/relay.go:113-128 |
| `Land` | a write that a publish left under way reaches the log, at any later time | pkg/kafka/producer.go:22-30 |
| `Fetch`, `Settle` | the consumer loop hands the next order.placed message to the handler, then commits its offset (which may fail) or, after an error, goes on | pkg/kafka/consumer.go:48-84 |
| `RestartReader` | a new consumer process resumes at the committed offset | pkg/kafka/consumer.go:27-40 |

**Objects that take these steps.** `Cluster.Stores` is the shared state as an object whose value is at every
moment `Exec` of a recorded run. The services are classes that work on it as the code does: `Dispatch.Relay`,
`OrderService.Orders`, `Assignment.Assignments`, `RiderService.Riders`. Before each of their statements a `Tick` lets
all other processes take any steps they like and decides whether the statement fails, so their contracts hold under
interference: they say of each statement what it finds in the run as the gap before it left it (`Met`), when exactly it
succeeds, and what the one commit then writes. A row lock may be waited for in the gap; a statement whose row is still
locked after it has failed, by a timeout or a cancelled context. Further clauses say what happens when nothing
interferes. In the publish loop a failing tick is the loss of the connection.

**Checks belong at the row lock.** `RowLocks` proves that what an order UPDATE finds as it takes the row lock is what
is there when its transaction commits. The missing checks named below are therefore stated where the code could make
them, in the WHERE clause of that UPDATE, for the transactions that go on to commit.

**Standing alone.** `Consumer` (the fetch, handle, commit loop of any topic, with restarts) and
`RateLimit`/`RateBound`/`RateClocks` (the limiter's Redis commands, from several replicas, in any order and with
clocks that differ).

**Taken for granted about the stores.** Postgres: a row lock is held to the end of its transaction, a waiting
UPDATE re-reads the committed row, commit is atomic and a failed commit has no effect, a serial value is drawn
once, SELECT ... FOR UPDATE SKIP LOCKED is one step. Kafka: an append-only log, one partition per topic
(pkg/kafka/admin.go:45), one consumer per partition, cumulative commits. Redis: a geo search returns members in
the radius, nearest first; each command on a key is one step.

## What comes out

Guaranteed in every run, with any number of relays and deliveries:
- no committed row is lost or locked twice; duplicates are bounded by the dispatches that failed and the writer's
  retries, both counted on the run; every message has the order and event of a committed row, unchanged;
- each commit is one write and leaves all else alone; orders, riders and the audit log are what the commits say;
- replaying an order's outbox rows in id order gives its current status and rider;
- whoever else writes meanwhile, `Assign` claims the first candidate that is AVAILABLE, with the order's row free, when
  its own UPDATE comes to it, unless a statement fails; the other operations, too, succeed exactly by what their
  statements find;
- between restarts the consumer hands out consecutive offsets, each once, whatever becomes of handlers and commits;
- a rider is claimed at most once per shift; a handled order stays resolved; each delivery commits at most one row;
- PLACED never comes back, DELIVERED comes only after the whole main line; the transactions cannot deadlock;
- with one relay, and while writers go on, a row with m unsent rows below it is sent after ceil((m + 1) / batchSize)
  successful dispatches, unless a lower id commits late.

Promised by comments or documentation, and true only under a condition that is proved exact:
- Per-order publishing order (lines 364 and 554-557 of the engine's README.md) holds if and only if at most one relay runs.
  Two are started (cmd/order-service/main.go:87, cmd/assignment-service/main.go:77).
- A row marked sent is never written again if and only if no dispatch that lost its transaction has it still to
  publish. A run shows one that does: relay 1 sends the row while relay 0, without its lock, is still in its loop.
- An order's history is a path of the lifecycle graph if and only if every UpdateStatus that goes on to commit finds,
  as it takes the row, the status that was read, or cancels an order that is not final. Its WHERE clause does not
  ask, and a cancelled order can come back to life.
- Replaying order_events (lines 559-562 of the engine's README.md) gives the status if and only if the last status write was not
  markCancelled's, which writes no event.
- Redelivering order.placed (internal/outbox/outbox.go:9-13 calls consumers idempotent), with both deliveries
  calm, is harmless if and only if the first left the order out of PLACED and the second finds no AVAILABLE
  candidate. A claim leaves the order PLACED, so after a claim a redelivery strands the first rider or cancels the
  assigned order; two runs end so, each with a failed offset commit and a restart between the deliveries.
- Over whole runs, an order gets at most one assignment or no-rider row if and only if every delivery that goes on to
  commit finds none of either as its order UPDATE takes the row. Finding the order PLACED without a rider is enough,
  and is exact for orders that nobody calls Transition on; for others it is not: an order ACCEPTED before its message
  arrives is claimed once, and not found PLACED.
- Every claim is of an order that is not final if and only if the order UPDATE of each claim that goes on to commit
  finds it so as it takes the row. Its WHERE clause does not ask, and a run sends a rider for a CANCELLED order.
- A message whose handler failed (pkg/kafka/consumer.go:42-43) comes back if and only if a restart precedes any
  later successful commit.
- "The order is always resolved instead of hanging in PLACED" (internal/assignment/service.go:63-66): an
  order.placed message below the committed offset was handled, and its order resolved, if and only if no commit
  passed over it after the handler had failed on that offset. A run leaves an order PLACED so, and it stays PLACED in every
  continuation in which nobody moves it by hand. That a skipped order is never resolved would be too much to say:
  a Transition or a duplicate of its message may still resolve it.
- The limiter's set holds exactly the attempts that no cutoff at or above their score, and no expiry, has met since
  they were added, for any clocks and interleavings; it is the window of the caller's own cutoff if and only if no
  command overtook that cutoff. With one clock the expiry of idle keys is invisible.
- At most `limit` distinct timestamps get through in any stretch of L ns, over all interleavings of clocks that differ
  by up to `skew`, if and only if L <= window - skew with exact scores and L <= window - 256 - skew with the float64
  scores the code stores (a single nanosecond in any case). order-service runs two replicas
  (k8s/order-service.yaml:8). With whole pipelines by clocks within `drift` of Redis's own clock, the bounds are
  window - 2 drift for exact scores, and for float64 scores window - 256 without drift and window - 255 - 2 drift with
  it; each is exact. The nanosecond gained comes from the fast replica, whose own attempt takes the place of the one
  it prunes.

## Model

| member | source | states |
|---|---|---|
| Lifecycle.ValidateTransition | internal/order/statemachine.go:7-26 | accepted exactly for an active order that moves up one rank or is cancelled; otherwise the error names the unknown source, or source and target of the illegal move |
| Lifecycle.PlacedNeverRecurs | internal/order/statemachine.go:7-14 | if each entry of a history was legal from some earlier entry, PLACED is never entered again |
| Lifecycle.DeliveredWentThroughAll | internal/order/statemachine.go:7-14 | in such a history DELIVERED is preceded by PLACED, ACCEPTED, PREPARING, PICKED_UP in that order |
| Lifecycle.PathIsShort | internal/order/statemachine.go:7-14 | a path of the graph has at most five entries, strictly rising rank, no repeats, and nothing after a final status |
| System.PendingBelow | internal/outbox/relay.go:76-83 | the rows a selection ranges over are exactly the unsent, unlocked ones, in strictly increasing id order |
| Locking.CommitKeepsInv | internal/assignment/service.go:161-205 | a commit keeps one writer per order row, one claim per rider row, reserved riders AVAILABLE, drawn ids newer than all rows of their order, and messages tied to committed rows |
| Locking.InvAlways | internal/order/repository.go:118-153 | those lock and id facts hold in every reachable state |
| OutboxReplay.ReplayNewest | internal/outbox/outbox.go:50-53 | a row newer than all rows of its order is read last by an id-order replay, even if other orders' newer ids committed first |
| OutboxReplay.ReplayYieldsCurrentOrder | internal/order/repository.go:118-153 | in every run, an id-order replay of an order's rows gives exactly its stored status and rider |
| OutboxReplay.OrderAndEventTogether | internal/order/repository.go:25-92 | in every run, an order exists if and only if its order.placed row does |
| Records.CommitIsOneWrite | internal/order/repository.go:118-153 | in every run a commit is one write for its job: one new unsent row, newer than all of its order, the order changed in the status or rider it names and nothing else of it, riders changed only by a claim, which turns one AVAILABLE rider BUSY, and every other order, rider, relay, message and process as before |
| Records.TablesAreTheCommits | internal/rider/repository.go:21-64 | in every run the audit log lists the audited commits, each order is what the commits about it say, and each rider has the status last written: OFFLINE at first, BUSY by a claim, which always comes right after a write of AVAILABLE |
| Relays.RelayInvAlways | internal/outbox/relay.go:22-26 | in every run, the batches of open relay transactions are disjoint, sorted, unsent, with their published prefix in the log; sent rows are in the log |
| Relays.LostAlways | internal/outbox/relay.go:113-128 | a dispatch that lost its transaction goes on in order: its batch is sorted and committed and its published prefix is in the log |
| Relays.NoRowIsLost | internal/outbox/relay.go:69-139 | every committed row is sent and in the log, or held by exactly one relay, or selectable; every message has the order and the event of a committed row, unchanged |
| Relays.RowsStay | internal/outbox/relay.go:130-135 | committed rows never disappear or change, and sent rows stay sent |
| Relays.DuplicatesBounded | internal/outbox/relay.go:113-135 | a row's copies in the log and its writes under way together are at most one more than the failed or crashed dispatches that held it plus the retries the Kafka writer made of it |
| Accounts.EveryWriteIsOfAPublish | internal/outbox/relay.go:113-128 | in every run a row's messages, in the log or under way, are exactly the writes that the publishes of the run made of it |
| Accounts.FailuresAreCounted | internal/outbox/relay.go:66-75 | in every run the failures held against a row are the dispatches that ended, or lost their transaction, holding it unmarked, less those that have it still to publish |
| Accounts.DuplicatesAreFailures | internal/outbox/relay.go:113-135 | so a row's writes are at most one more than the dispatches of the run that failed holding it and the writes its publishes made beyond their first |
| Relays.NoCopyAfterSentIff | internal/outbox/relay.go:113-135 | once a row is marked sent, no continuation writes it again (copies in the log plus writes under way stay the same) if and only if no dispatch that lost its transaction has it still to publish |
| Relays.SentRowIsWrittenAgain | internal/outbox/relay.go:22-26 | a run in which relay 1 publishes and marks a row and relay 0, which had lost its lock on it, then publishes it again |
| PublishOrder.JournalAlways | internal/outbox/outbox.go:35-55 | each order's rows commit in id order, and the commit history holds exactly the outbox rows |
| PublishOrder.OneRelayPublishesInOrder | internal/outbox/relay.go:76-128 | with one relay, whenever a row is in the log all rows its order committed before it are in the log before it, retries, late writes and lost transactions included |
| PublishOrder.OneTopicIff | internal/assignment/service.go:119-197 | two events share a topic if and only if both place orders, both assign riders, or both change a status, the no-rider cancel being a status change |
| PublishOrder.TwoRelaysReorder | cmd/assignment-service/main.go:77 | a run of two relays that ends with PREPARING, PLACED, ACCEPTED in the log, in that order, PREPARING and ACCEPTED of one order and one topic |
| PublishOrder.InOrderIffOneRelay | internal/outbox/relay.go:24-26 | all runs of n relays publish in commit order if and only if n <= 1 |
| StatusHistory.HistoryOfRacingWriters | internal/order/service.go:53-67 | in every run, each status was legal from an earlier one of the order, the last is the stored one, PLACED is only first, DELIVERED only after the main line |
| RowLocks.FrozenUnderLock | internal/order/repository.go:125-152 | from the order UPDATE that takes the row lock to the end of its transaction no step changes the order's row or adds to its outbox rows |
| RowLocks.GuardAtLockIff | internal/assignment/service.go:179-201 | any check on the order holds at all commits of a run if and only if the order UPDATEs that led to them found it so |
| StatusHistory.FollowsGraphIffGuarded | internal/order/repository.go:125-127 | all histories of a run are paths of the graph if and only if each UpdateStatus that goes on to commit finds, as it takes the row, the status that was read, or cancels a non-final order |
| StatusHistory.GuardedHistoryIsShort | internal/order/statemachine.go:7-14 | in guarded runs a history has at most five statuses, rising rank, no repeats, and final is final |
| StatusHistory.CancelledOrderRevives | internal/order/repository.go:125-127 | a run in which an order goes PLACED, CANCELLED, ACCEPTED |
| AuditLog.AuditReplayIff | internal/assignment/service.go:107-128 | the audit replay gives the rider always, and the status if and only if the last status write was not a no-rider cancel; then it says PLACED for a CANCELLED order |
| AuditLog.NoRiderCancelIsUnaudited | internal/assignment/service.go:107-128 | a run that ends so |
| RiderShifts.OneClaimPerShift | internal/assignment/service.go:161-205 | in every run, claims of a rider plus one if AVAILABLE never exceed the AVAILABLE writes, and between two claims lies one |
| Deliveries.HandledAlwaysResolved | internal/assignment/service.go:58-95 | in every reachable state, a delivery that ended with nil or no rider left its order with a rider or out of PLACED |
| Deliveries.HandledStaysResolved | internal/assignment/consumer.go:17-32 | and it stays so after every continuation of the run |
| Deliveries.RowsBoundedByDeliveries | internal/assignment/service.go:67-94 | an order's assignment and no-rider rows are at most its deliveries, and at most one is a no-rider row |
| Progress.NoDeadlock | internal/assignment/service.go:161-205 | from every reachable state each open process can be run to its end by forward steps only, with no rollback |
| Progress.RolledBack | internal/assignment/service.go:161-166 | an error or the death of a process changes no table, frees exactly the rows it held, and leaves the delivery of a dead process ended |
| Runs.CreateUninterrupted | internal/order/repository.go:29-92 | the statements of Create, uninterrupted, amount to one atomic write of order, audit and outbox row |
| Runs.MoveUninterrupted | internal/order/service.go:53-67 | the statements of Transition, uninterrupted, amount to one atomic write of status, audit and outbox row |
| Cluster.Stores.FinishTx | internal/outbox/outbox.go:35-55 | under interference it succeeds exactly if the insert and the commit do; then the run ends with one commit, one write to the tables as they are by then; if not, nothing is written and the transaction is rolled back |
| Cluster.Stores.Insert | internal/outbox/outbox.go:50-54 | the outbox insert, or the rollback of the transaction |
| Cluster.Stores.Commit | internal/order/repository.go:152 | the commit: one write to the tables as the gap before it left them, or the rollback |
| Waiting.SentAfterEnoughDispatches | internal/outbox/relay.go:76-135 | in every run with one relay at work, whatever writers, failures and lost transactions do, a row is sent and in the log once ceil(u / size) dispatches have succeeded, u the unsent rows up to it at the start, if no lower id committed meanwhile |
| Dispatch.Relay.PublishOne | internal/outbox/relay.go:115-128 | under interference, one publish at the state the gap before it left: exactly as many messages land or stay under way as the outcome says, each with the order and event of the row; if the connection drops the locks are gone and the loop goes on |
| Dispatch.Relay.PublishNext | internal/outbox/relay.go:113-128 | the same within the loop: an acknowledged row's message comes after those of the rows before it |
| Dispatch.Relay.PublishAll | internal/outbox/relay.go:113-128 | succeeds exactly if every publish is acknowledged, and then the batch is in the log in order, written by this dispatch; the first error abandons it; undisturbed, what a dispatch that lost its transaction leaves behind is at most messages in the log |
| Dispatch.Relay.Mark | internal/outbox/relay.go:130-135 | marks exactly the rows of the batch and touches no other row, or fails if the transaction is gone |
| Dispatch.Relay.SelectBatch | internal/outbox/relay.go:76-111 | takes the first batchSize rows of the backlog as the gap before it left it |
| Dispatch.Relay.Dispatch | internal/outbox/relay.go:66-139 | under interference, it takes the first rows of the backlog it finds and succeeds exactly if nothing is to send or every publish, the connection and the commit hold; success means this dispatch has put every row in the log, in order and unchanged, and marked it; undisturbed, exactly one message each if the writer does not retry, and a failure leaves the backlog alone |
| Dispatch.Relay.Run | internal/outbox/relay.go:45-64 | undisturbed, the backlog is empty if and only if ceil(backlog / batchSize) ticks succeeded, under any mix of failures, and then every row is in the log; with writers at work, each row is sent once enough ticks have succeeded for the unsent rows up to it, if no lower id committed late |
| Dispatch.MarkedLeaveBacklog | internal/outbox/relay.go:130-135 | marking the first k rows leaves exactly the rest of the backlog, in order |
| Dispatch.DrainedMeansPublished | internal/outbox/outbox.go:3-7 | with an empty backlog and no batch in flight every committed row is in the log |
| OrderService.Orders.Create | internal/order/repository.go:25-92 | under interference, succeeds exactly if the insert meets no such order and no statement fails, and then the run ends with its one write, the PLACED order with its audit and order.placed rows; otherwise it commits nothing |
| OrderService.Orders.LockForUpdate | internal/order/repository.go:125-133 | the order UPDATE takes the row, whatever its status, exactly if the row is free when it comes to it |
| OrderService.Orders.UpdateStatus | internal/order/repository.go:115-153 | under interference, succeeds exactly if its UPDATE comes to a free row and no statement fails, whatever the status is by then; its one write changes the status and nothing else of the order, no rider and no other order; otherwise it commits nothing |
| OrderService.Orders.ReadForMove | internal/order/service.go:54-60 | not found, illegal, or the order as the unlocked read found it |
| OrderService.Orders.Transition | internal/order/service.go:50-67 | the answer in every case, by what the read and the UPDATE find among other writers: on success the order returned has the new status and the rider as read, and the run ends with the one write; otherwise nothing is committed; undisturbed, riders and other orders are as before and the order differs in its status only |
| OrderService.Orders.Cancel | internal/order/service.go:45-48 | the same to CANCELLED; undisturbed and with no failing statement, succeeds exactly for existing orders that are not final and whose row nobody holds; the invalid error exactly for final or unknown statuses |
| Assignment.Assignments.TakeRider | internal/assignment/service.go:168-177 | under interference, the rider is taken exactly if the statement goes through and finds the row free and AVAILABLE as the gap before it left it |
| Assignment.Assignments.AttachRider | internal/assignment/service.go:179-183 | the order UPDATE of a claim takes the order row exactly if it goes through and finds it free, whatever its status; otherwise the claim is rolled back |
| Assignment.Assignments.ClaimRider | internal/assignment/service.go:158-205 | under interference, won exactly if both UPDATEs find what they need and no statement fails; then the run ends with the one write of the claim; a lost or failed claim writes nothing and moves to the next candidate |
| Assignment.Assignments.LockPlaced | internal/assignment/service.go:107-117 | the order UPDATE of the fallback takes the row of an order that is PLACED as it comes to it, and of no other |
| Assignment.Assignments.MarkCancelled | internal/assignment/service.go:97-129 | under interference, cancels with its one write exactly if its UPDATE finds the order PLACED and no statement fails; already moved exactly if the UPDATE finds it not PLACED; in these and the error case nothing else is written |
| Assignment.Assignments.TryCandidates | internal/assignment/service.go:67-85 | under interference, the candidates are tried in turn, each at its own moment of the run, and the first that can be claimed by then is; the losers write nothing; when calm that is the first AVAILABLE candidate |
| Assignment.Assignments.Assign | internal/assignment/service.go:51-95 | under interference, exactly the first candidate whose claim goes through is claimed, else the fallback runs; if no statement fails, only candidates not AVAILABLE at their own UPDATE, or with a locked row, are passed over and the outcome counts as handled; a nil or no-rider outcome leaves the order resolved; when calm the tables change by exactly one claim, one cancel, or nothing |
| Assignment.FaultlessDelivery | internal/assignment/consumer.go:26-30 | that clause, for every run: an already moved order, too, counts as handled |
| Assignment.Assignments.FindRider | internal/assignment/service.go:67-94 | the candidates in turn, then the fallback cancel; when calm exactly one claim, one cancel, or nothing |
| Redelivery.DeliverTwice | internal/outbox/outbox.go:9-13 | the handler run twice on one message, both times calm: the second run leaves the tables as they were if and only if the first left the order out of PLACED and the second has no AVAILABLE candidate; after a claim a second rider replaces the first, who stays BUSY, or the assigned order is cancelled |
| Redelivery.HarmOnTables | internal/assignment/service.go:179-181 | that harm after every claim of a PLACED order, whatever processes are about |
| Redelivery.RedeliveryTakesSecondRider | internal/assignment/service.go:179-181 | a run in which rider 1 is claimed, the offset commit fails, the consumer restarts, and rider 2 replaces rider 1, both BUSY |
| Redelivery.RedeliveryCancelsAssigned | internal/assignment/service.go:107-128 | a run in which the redelivered order is CANCELLED for want of a rider with rider 1 on it and BUSY |
| DeliveredOnce.AnsweredOnceIff | internal/assignment/service.go:107-128 | in every run, an order has at most one assignment or no-rider row if and only if each delivery that goes on to commit finds none of either as it takes the order row |
| DeliveredOnce.WaitingSuffices | internal/assignment/service.go:179-181 | it has at most one if each such delivery finds the order PLACED without a rider |
| DeliveredOnce.WaitingIffUnmoved | internal/assignment/service.go:67-94 | and only if, for an order that nobody calls Transition on |
| DeliveredOnce.MovedOrderIsClaimedOnce | internal/order/service.go:53-67 | a run with one assignment row whose delivery found the order ACCEPTED |
| ClaimGuard.LiveClaimsIffGuarded | internal/assignment/service.go:179-181 | in every run, each claim follows a last status that is not final if and only if the order UPDATE of each claim that goes on to commit finds its order not final as it takes the row |
| ClaimGuard.CancelledOrderIsClaimed | internal/assignment/service.go:161-205 | a run in which a CANCELLED order takes a rider who becomes BUSY |
| Nearest.NearestAvailableRiders | internal/assignment/service.go:131-156 | the candidates are the riders that the returned names denote, in order, without the names that do not parse |
| Nearest.PickIsNearest | internal/assignment/service.go:131-156 | the first AVAILABLE candidate is a nearest AVAILABLE rider in the radius despite the cut at ten; if there is none, no returned member is AVAILABLE, and an uncut answer means there is none in the radius |
| Nearest.AssignNearest | internal/assignment/service.go:58-95 | when calm, the order gets such a rider, who alone becomes BUSY; if none, the order is no longer PLACED |
| RiderService.Riders.Register | internal/rider/repository.go:21-36 | under interference, a new rider is OFFLINE and nothing else changes, or nothing is written |
| RiderService.Riders.WriteStatus | internal/rider/repository.go:53-64 | the status is written whatever it was, once the row is free, and nothing else changes; not found and error cases write nothing |
| RiderService.Riders.SetStatus | internal/rider/service.go:37-62 | the answer, the row and the index in every case: AVAILABLE is written before coordinates are checked, and the row stays written when the index update fails |
| RiderService.RefusedButAvailable | internal/rider/service.go:41-49 | undisturbed, a refused request without coordinates leaves the rider AVAILABLE and the index as it was |
| Consumer.Loop.Run | pkg/kafka/consumer.go:42-85 | the loop's position, commits and deliveries are those of the turn-by-turn specification; it hands out consecutive offsets, each once, whether or not handlers and commits succeed |
| Consumer.Loop.Reopen | pkg/kafka/consumer.go:27-40 | a new reader resumes at the committed offset, with everything else as it was |
| Consumer.OffsetsAreConsecutive | pkg/kafka/consumer.go:47-84 | between restarts the position rises by one a message, the i-th delivery is of the i-th offset from the start, and the committed offset is the one after the last message handled and committed |
| Consumer.CommittedOffsetsAreSound | pkg/kafka/consumer.go:72-83 | over restarts and failing commits the committed offset never moves back, and every offset below it was handed to the handler |
| Consumer.FailedMessageComesBackIff | pkg/kafka/consumer.go:42-43 | a failed message is delivered again, or is next to be, if and only if a restart comes before any later successful commit |
| Consumer.FailureThenCommitSkips | pkg/kafka/consumer.go:72-83 | a failed message followed by a committed one is never delivered again |
| Consumer.HandledAndCommittedIsFinal | pkg/kafka/consumer.go:81-83 | a message that was handled and committed is never delivered again, over any restarts |
| PlacedConsumer.ReaderAlways | pkg/kafka/consumer.go:42-85 | in every run the committed offset is at most the fetch position, the delivery in hand is that of the message before the position, and every offset whose handler returned nil has its order resolved |
| PlacedConsumer.TopicIsPlacedMessages | pkg/kafka/admin.go:45 | the topic holds exactly the messages published to it, each at the offset given by those before it |
| PlacedConsumer.FetchesAreConsecutive | pkg/kafka/consumer.go:47-84 | in every run, between restarts the consumer hands out the messages of consecutive offsets from the committed one on, each once, whatever becomes of their handlers and commits |
| PlacedConsumer.ReaderNeverStuck | pkg/kafka/consumer.go:47-84 | in every reachable state it settles a handler that has returned and fetches if a message is left, and a restart resumes at the committed offset |
| PlacedConsumer.CommittedIsLastCommit | pkg/kafka/consumer.go:72-83 | in every run the committed offset is the one after the last message whose handler returned nil and whose commit went through |
| PlacedConsumer.SkippedIff | pkg/kafka/consumer.go:72-83 | an offset below the committed one is unhandled if and only if a successful commit passed over it unhandled |
| PlacedConsumer.CommittedIsHandledUnlessSkipped | internal/assignment/service.go:63-66 | an order.placed message below the committed offset was handled if and only if no commit passed over it; then its order has a rider or left PLACED, and otherwise the handler had returned an error on that offset to this consumer |
| PlacedConsumer.StuckForGood | pkg/kafka/consumer.go:72-79 | a PLACED order with no rider whose messages are all published and below the committed offset stays so in every continuation without a Transition of it or a second consumer |
| PlacedConsumer.OrderLeftInPlaced | internal/assignment/service.go:59-66 | a run in which the geo search fails for one order, the next order's message is committed, and the first order is left so |
| PlacedConsumer.OrderLeftForGood | internal/assignment/service.go:63-66 | every such continuation of that run leaves it PLACED without a rider |
| RateLimit.SetIsKept | pkg/middleware/ratelimit.go:41-45 | for any commands of any clients, the set holds exactly the attempts whose score lies above every cutoff applied since they were added, with no expiry since |
| RateLimit.SetIsWindowIff | pkg/middleware/ratelimit.go:38-44 | after a client's own prune the set is the window of its cutoff if and only if no command, a later and higher cutoff or an expiry, took an attempt out of that window that was not made again |
| RateLimit.OrderlyCountsWindow | pkg/middleware/ratelimit.go:36-52 | with one clock, every count is that of the distinct attempts above the cutoff over the whole history of the key, for any monotone rounding |
| RateLimit.AttemptKeepsOrder | pkg/middleware/ratelimit.go:41-48 | whole pipelines with a clock that does not run back, and expiry only after a window of rest, are such a history |
| RateLimit.AttemptCountsWindow | pkg/middleware/ratelimit.go:41-50 | so an attempt counts its window whether or not the idle key had expired |
| RateLimit.KeysApart | pkg/middleware/ratelimit.go:37 | two identities never share a key under one prefix |
| RateLimit.PrefixesShareIff | pkg/middleware/ratelimit.go:37 | two limiters share a key for some identities if and only if the prefix of one, with its colon, begins that of the other |
| RateLimit.SlidingWindow.Exec | pkg/middleware/ratelimit.go:41-48 | the commands reach Redis in order, each after what others did before it, and the count is of the set as it then is |
| RateLimit.SlidingWindow.Allow | pkg/middleware/ratelimit.go:34-52 | for any clock and interleaving, allowed exactly when the number of attempts kept, this one and rejected ones included, is within the limit; with whole pipelines and one clock that is the number in the window; errors by how far Redis got; the set, history and grants of every other identity untouched |
| RateClocks.SeenIsInWindow | pkg/middleware/ratelimit.go:41-50 | for every list of requests of one clock, keys expiring or not, the set each request counts is that of the distinct requests stamped above its cutoff over the whole list |
| RateClocks.ExpiryInvisible | pkg/middleware/ratelimit.go:45 | so each request counts the same whether or not idle keys expire |
| RateBound.LimiterKeepsLimit | pkg/middleware/ratelimit.go:34-52 | a limiter whose replicas' clocks differ by at most `skew` has let through at most `limit` distinct times in any stretch its rounding keeps with the skew to spare, all replicas counted |
| RateBound.LimiterBounds | pkg/middleware/ratelimit.go:34-52 | that is any stretch of up to window - skew for a limiter with exact scores and window - 256 - skew for one with float64 scores |
| RateBound.LimiterBreaks | pkg/middleware/ratelimit.go:34-52 | for every longer stretch, rounding and skew there is such a limiter, run through Allow, that lets two through a limit of one |
| RateBound.ExactBoundIff | pkg/middleware/ratelimit.go:38-51 | with exact scores the bound holds over stretches of length L in all command histories within the skew if and only if L <= max(1, window - skew) |
| RateBound.Float64BoundIff | pkg/middleware/ratelimit.go:38-51 | with float64 scores (times from 2^60 to 2^61 ns) it does if and only if L <= max(1, window - 256 - skew) |
| RateBound.SameInstantCountsOnce | pkg/middleware/ratelimit.go:42 | any number of attempts at one nanosecond passes a limit of one |
| RateClocks.ClocksGiveSkew | pkg/middleware/ratelimit.go:37-45 | whole pipelines by clocks within `drift` of Redis's, on a key that Redis lets expire a window after its last use, are a history within a skew of 2 drift |
| RateClocks.ClockedExactIff | pkg/middleware/ratelimit.go:37-51 | over all such requests the bound holds with exact scores if and only if L <= max(1, window - 2 drift) |
| RateClocks.UnexpiredExactIff | pkg/middleware/ratelimit.go:37-51 | on a key that never expires, with drift, if and only if L <= window - 2 drift + 1 |
| RateClocks.ClockedFloat64Iff | pkg/middleware/ratelimit.go:37-51 | with float64 scores if and only if L <= window - 256 without drift, and L <= window - 255 - 2 drift with it |
| RateClocks.FastReplicaBreaksLimit | pkg/middleware/ratelimit.go:37-44 | the failing half: a fast replica prunes two attempts for the one it adds, and three get through a limit of two in any stretch that holds them |

## Left out

- HTTP handlers, routing, JSON, JWT, WebSocket notifications, tracing, metrics, configuration, topic creation: plumbing that would only add easy members.
- Place's field validation and rider registration checks (internal/order/service.go:69-90, internal/rider/service.go:24-29): easy guards in front of the modelled writes.
- Haversine distance and ETA arithmetic: the geo index is given by distances, and eta_minutes is not modelled because no decision reads it.
- Location updates and the removal of a claimed rider from the index (internal/location/service.go:25-32, internal/assignment/service.go:77-80): the step system lets a search return any list, which covers every content of the index. `RiderService.Riders` keeps the index only as far as SetStatus writes it.
- Payloads that do not parse (internal/assignment/consumer.go:20-23): messages are typed, and all order.placed messages come from Create.
- Serial ids of order_events: the audit log is kept in commit order, which for one order is id order for the same reason as in the outbox.
- Commits that are reported failed but took effect, and consumer-group rebalancing with two live owners of a partition.
- Dispatch.Relay.Run: the endless loop is any finite number of ticks.
- Consumer.Loop.Run: the endless loop is any finite number of completed turns; a fetch that waits for a message is no turn.
- PublishOrder.OneRelayPublishesInOrder: one relay only, because with more the code does not provide it (PublishOrder.InOrderIffOneRelay).
- RateClocks.ClockedFloat64Iff: for windows of more than 257 ns plus twice the drift; below that the limiter bounds stretches of two nanoseconds at most.
- RateLimit.SlidingWindow.Allow: the key's lifetime is the exact window, where the Redis client sends whole seconds (the only caller uses one minute); the HTTP wrapper, which lets a request through when Allow returns an error (pkg/middleware/ratelimit.go:65-70), is not modelled.
- PlacedConsumer.StuckForGood: an order that only waits for an open delivery or an unsent row is not covered; such a one may still be resolved.
