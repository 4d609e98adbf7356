# A verified model of the order pipeline, token validity and the audit sanitizer

The shop takes an order in four stages. `OrdersService.create` locks stock rows, validates the
lines, writes the order and its items, reserves stock and commits, then publishes to
`orders.process`. The worker processes each delivered message in one transaction (dedup row,
order update, outbox row) and retries or dead-letters failures. The outbox relay hands the rows
to `domain.events` and marks them SENT or backs off. Any number of requests, deliveries and ticks
run at once, over one database and one broker, and each can fail at any point.

`Pipeline.dfy` is that system as a machine. A label is one step of the code (a row lock, an
insert, a commit, an ack) or one event of its environment (a crash, a redelivery, a payment
answer, the clock), and a run is any sequence of enabled labels. The results hold in every
reachable state, along every run, for any number of participants.

| file | content |
|---|---|
| `Basics.dfy`, `Tables.dfy` | shared types; the tables, and what each transaction does to them when it runs alone |
| `Pipeline.dfy` | the machine |
| `Transactions.dfy`, `Deliveries.dfy`, `Relays.dfy` | the invariants of the three stages and the steps that keep them |
| `Updates.dfy` | status updates in flight: what their rows become, and which saves are timely |
| `Invariants.dfy` | their conjunction, kept by every run |
| `Theorems.dfy` | what follows for the whole pipeline |
| `Answers.dfy`, `Histories.dfy` | what the labels of a run say of its answers, and the bounds as counts of labels |
| `Reservations.dfy`, `Amounts.dfy` | stock and price arithmetic |
| `OrdersService.dfy`, `OrdersWorker.dfy`, `OutboxRelay.dfy` | the services' own methods and loops |
| `CreateRuns.dfy` | `create` as a run of the machine |
| `Draining.dfy` | emptying the outbox by successive ticks |
| `UpdateRuns.dfy` | `updateStatus` as a run of the machine |
| `StatusRace.dfy`, `DuplicateRace.dfy` | runs in which a late status save erases a processing, one in which it leaves its time, and one in which a duplicate POST gets a conflict |
| `Tokens.dfy`, `AuthService.dfy` | login, logout, revocation, pruning and the token check |
| `Sanitizer.dfy` | the audit log's `sanitize` |

Two definitions carry most statements. `Tables.Replay` runs a log of committed transactions one at
a time on plain tables and refuses a transaction that would not have committed where it runs; it
knows nothing of locks, loaded entities or interleaving. `Pipeline.History` records what happened
(commits, publishes, deliveries, redeliveries, doubled messages, rollbacks, erased processings, first
failures); no step reads it.

`updateStatus`, `update` and `setRole` each read a row and later save it, and the save itself first
loads the row to see which columns differ and then writes these. Read, load and write are three
steps here, and anything may happen between them. A save is timely when it changes no status or
makes a transition that the row, as it is when written, allows. Where a late save breaks a property,
the property is proved to hold for exactly the runs without such saves.

What the model takes for granted: a transaction that reports commit or rollback did so; clocks do
not run backwards; a publish that returned is durable; ids the database and `randomUUID` draw are
fresh; a channel that cannot ack cannot publish either, as both use the same one. The payment
service is an arbitrary answer: authorized, deadline exceeded, unavailable, or another error.
Stock rows are locked one at a time, in any order, and a deadlock abort is one of the failures
any open transaction may meet. Prices are exact reals.

## Where the code and its documentation differ

- The comments of `create` speak of `FOR NO KEY UPDATE` locks that prevent overselling
  (src/orders/orders.service.ts:77, 104). The lock mode used is the stronger `FOR UPDATE`,
  and the validation compares each line with the free stock by itself, so an order that names a
  product twice can oversell. `Reservations.OversellExactly` gives the exact condition.
- `validate` has a branch for a missing user (src/auth/strategies/jwt.strategy.ts:37) that cannot
  be taken, because `findOne` throws first. The verdict for a deleted user is `UserNotFound`.
- The repository's README describes messages with `simulate: "failTwice"`; the code knows
  `alwaysFail` only (src/orders/orders.service.ts:267).
- `updateStatus` checks the listed transitions against an entity it saves later. When another save
  or a worker commits in between, the order can leave PROCESSED or CANCELED. `Theorems.Serialisability`,
  `ExactlyOnceExactly` and `StatusClimbs` say exactly which saves do that, and
  `StatusRace.SaveErasesProcessing` is a run from the empty tables in which one does. A save that
  loads its row before the worker's commit and writes after it does not even clear processedAt, as
  it saw no difference there: `Theorems.StampedExactly`, and `StatusRace.SaveLeavesStamp` for a run
  that ends with a CANCELED order that carries a processing time.
- `revokeAllSessions` is said to invalidate all active tokens of a user
  (src/user/user.service.ts:73-76). An `update` or `setRole` that read the user before it and saves
  after it writes the old version back: `Tokens.RevocationExactly`, and `Tokens.RevokedThenRevived`
  for a run.
- A duplicate POST is said to return the existing order (src/orders/orders.service.ts:76). One that
  is still waiting for its stock rows when the first commits is answered with a conflict if what is
  left no longer fits its lines: `OrdersService.DuplicateAnswer`, and
  `DuplicateRace.DuplicateGetsConflict` for a run.

## Model

| member | source | states |
|---|---|---|
| OrdersService.ValidateLines | src/orders/orders.service.ts:115-127 | The answer is the first line that asks for more than its product's unreserved stock or whose product has no stock row; there is no such answer exactly when every line fits by itself |
| OrdersService.ReserveLines | src/orders/orders.service.ts:151-155 | Each loaded stock row has been raised by the sum of its product's amounts over the lines saved so far, repeated products included, and no other row has changed; the loop ends early exactly at a failing save |
| OrdersService.OrdersService.FindByKey | src/orders/orders.service.ts:84-92 | Finds an order with the key exactly when there is one |
| OrdersService.OrdersService.Transact | src/orders/orders.service.ts:94-158 | Commits exactly when every line fits, the key is free and nothing fails before the commit; then order, items and reservations are all written, otherwise nothing is |
| OrdersService.OrdersService.Create | src/orders/orders.service.ts:80-250 | It commits exactly when no order has its key before and at the locks, each line fits the unreserved stock, and nothing fails; a commit adds a PENDING order, its items and the summed reservations and publishes attempt 1; the payment's answer then decides: authorized is a created order, an exceeded deadline a timeout, unavailable a missing service, anything else an internal error. Without a commit the tables are as they were, and the answer is the key's order, a conflict or an internal error, each in its case |
| CreateRuns.TransactIsRun | src/orders/orders.service.ts:94-158 | Every way the service's transaction can end is reached by the machine's lock, validate, insert, reserve and commit steps, with the same tables |
| CreateRuns.CreateIsRun | src/orders/orders.service.ts:80-209 | With other work allowed between the lookup and the locks, every answer the method can give and everything it leaves is reached by the machine's steps of one request, so what holds along every run holds of the method |
| Answers.AnswersExactly | src/orders/orders.service.ts:99-250 | Along every run a finished request answers created exactly if its own payment call was authorized, with a timeout exactly for an exceeded deadline, with a missing service exactly for an unavailable one, and with an internal error exactly for another payment error or a failure of its own |
| Theorems.ArriveExactly | src/orders/dto/create-order.dto.ts:17-21 | The requests that can arrive: at least one line, each of one unit or more without negative price or discount, products repeated or not |
| Invariants.CreateCommitIsSerial | src/orders/orders.service.ts:105-158 | The absolute values a committing create writes from its loaded rows are what validating and reserving on the tables as they stand at the commit would write |
| Invariants.RunKeeps | src/orders/orders.service.ts:80-344 | Every run keeps the invariant of locks and loaded rows, orders and keys, messages, dedup rows, outbox, ticks and status updates in flight |
| Theorems.Serialisability | src/orders/orders.service.ts:94-344 | However creates, worker transactions, ticks and the reads, loads and writes of status updates interleave: the database is what the committed ones leave when run alone in commit order, each status update being the transition it was checked to be, if and only if every save along the run was timely |
| Theorems.ReplayExactly | src/orders/orders.service.ts:42-283 | The serial execution itself: for each kind of transaction exactly when it is refused, and what it does to every table otherwise |
| Theorems.CommittedSerially | src/orders/orders.service.ts:94-344 | In every reachable state, late saves or not, the database is the serial execution of the log, in which only an untimely save stands as the columns it wrote |
| Theorems.ReplayFacts | src/orders/orders.service.ts:130-158 | The orders are exactly those the log creates, each with its user, address, key and stored items still as written |
| Theorems.AllOrNothing | src/orders/orders.service.ts:99-209 | A finished request has written order, items and reservations, exactly once, or nothing; payment errors and `created: true` mean the first, a conflict or an order found by key the second |
| Theorems.IdempotencyKey | src/orders/orders.service.ts:184-197 | Over all races with one key: at most one order, at most one reservation, one order returned to all, at most one `created` |
| OrdersService.DuplicateAnswer | src/orders/orders.service.ts:76-197 | A request whose key is committed by the time it holds its locks, and which meets no fault, gets that key's order exactly if its lookup found it or its lines still fit, and a conflict otherwise |
| OrdersService.DuplicateFits | src/orders/orders.service.ts:115-155 | After the first create the same lines fit once more exactly when each fits what was free less the whole order |
| DuplicateRace.DuplicateGetsConflict | src/orders/orders.service.ts:76-127 | A run from the empty tables in which two requests with one key both pass their lookup, the first commits the last unit, and the second is answered with a conflict while the key's order exists |
| Theorems.ConflictExactly | src/orders/orders.service.ts:115-127 | In every reachable state a request that holds its locks is answered with a conflict exactly when the committed stock does not fit its lines |
| Theorems.RacedFindsOrder | src/orders/orders.service.ts:184-197 | A request the unique index refused always finds the winning order at its second lookup |
| Reservations.SumBound | src/orders/orders.service.ts:115-127 | k accepted lines of a product together ask for between k units and k times what is free |
| Reservations.SumExactly | src/orders/orders.service.ts:151-155 | The units of a product are the sum of the amounts of the lines that name it |
| Reservations.CreateRaises | src/orders/orders.service.ts:112-155 | An accepted create raises reserved by exactly its lines' sum, by at most k times what was free, and leaves stock alone |
| Reservations.OversellExactly | src/orders/orders.service.ts:115-155 | An order can never oversell, on any stock that accepts it, if and only if it names no product twice |
| Reservations.RepeatedOversells | src/orders/orders.service.ts:115-155 | For any order that repeats a product, concrete stock that accepts it and is oversold by one unit |
| Reservations.NoOversell | src/orders/orders.service.ts:94-182 | In every reachable state where no committed order repeats a product, reserved is within stock for every product |
| Reservations.ReservedConserved | src/orders/orders.service.ts:151-155 | Reserved units are the initial ones plus those of the committed creates, each counted once; nothing else moves them or the stock |
| Amounts.AmountBound | src/orders/orders.service.ts:172-175 | The authorised total is within 0.005 times one plus the number of units of the total by stored prices |
| Amounts.TotalAmount | src/orders/orders.service.ts:172-174 | The loop's total is in whole cents, and is the sum of price times amount rounded to the nearest cent, upwards from the middle |
| Amounts.GrossExactly | src/orders/orders.service.ts:172-174 | That sum is price times amount for one line and adds up over the lines |
| Amounts.AmountExact | src/orders/orders.service.ts:139-147 | With two-decimal prices the two totals are equal |
| Amounts.StoredExactly | src/migrations/1700000000000-init.ts:63-64 | Each stored item has its line's product and amount; price and discount are kept exactly when they have two decimals and move by at most 0.005 otherwise |
| Amounts.DiscountIgnored | src/orders/orders.service.ts:139-175 | Changing only discounts changes neither total |
| OrdersWorker.OrdersWorker.ProcessFromQueue | src/orders/orders.service.ts:252-283 | Succeeds exactly when the message was processed before or its transaction commits; then the dedup row is there, the order is PROCESSED with the time read, and an outbox row is pending with no attempts and due at the time read; otherwise nothing is written; is a run of the machine |
| OrdersWorker.OrdersWorker.Forward | src/orders/orders-worker.service.ts:57-77 | A failed delivery below three attempts is followed by one with the next attempt, at three by a dead letter, never both |
| OrdersWorker.OrdersWorker.HandleMessage | src/orders/orders-worker.service.ts:32-79 | For every outcome of processing and of the channel: what is committed, whether and where the message is forwarded, whether the delivery is gone, and a delay of one second after the first attempt and two after the second; is a run of the machine |
| OrdersWorker.OrdersWorker.Consume | src/rabbitmq/rabbitmq.service.ts:98-124 | A handler that threw has its delivery queued again, beside whatever it had already committed and forwarded; is a run of the machine |
| OrdersWorker.SettledExactly | src/orders/orders-worker.service.ts:57-77 | The broker's copies afterwards: the delivery gone, or queued again with its attempt, and beside it the same message with the next attempt exactly when it was forwarded below three attempts |
| Theorems.ExactlyOnce | src/orders/orders.service.ts:252-283 | In every reachable state, whatever was redelivered, detached or saved late, processed message ids and outbox rows correspond one to one, and the PROCESSED orders are theirs without those a save took back |
| Theorems.ExactlyOnceExactly | src/orders/orders.service.ts:252-344 | After any run processed message ids, outbox rows and PROCESSED orders correspond one to one if and only if no save along it overwrote PROCESSED |
| Theorems.ProcessedOnce | src/migrations/1700000008000-add-processed-messages.ts:16-19 | No two committed worker transactions share a message id |
| Theorems.DeliveryBound | src/orders/orders-worker.service.ts:43-78 | Deliveries are at most three times the messages published and the redeliveries; attempts stay in 1 to 3 |
| Histories.DeliveriesCounted | src/orders/orders-worker.service.ts:43-78 | The same for the labels of every run: deliveries against publishes and deliveries put back |
| Theorems.NoLoss | src/orders/orders-worker.service.ts:46-78 | Every message published is queued or with a worker, or processed, or dead-lettered, and in exactly one of these places, once, as long as none was doubled; redeliveries are needed to double one |
| Theorems.PutBackAsIs | src/rabbitmq/rabbitmq.service.ts:106-121 | A delivery put back by a nack, a crash or a lost channel is queued as the same message with the same attempt, and nothing else changes |
| Theorems.OnePlaceExactly | src/orders/orders-worker.service.ts:46-78 | Along a run no message is ever in two places if and only if no settled delivery is put back and no handler commits whose delivery was put back; putting an unsettled one back, by crash, nack or lost channel, is harmless |
| Theorems.MessagesNameOrders | src/orders/orders.service.ts:157-170 | Every message in the broker names a committed order, so the worker's not-found branch is never taken |
| Theorems.Causality | src/outbox/outbox-relay.service.ts:45-64 | Every event handed to `domain.events` comes from an outbox row of a committed worker transaction, which came after the commit that created its order; the order is PROCESSED exactly unless a save took that back |
| OutboxRelay.OutboxRelay.Attempt | src/outbox/outbox-relay.service.ts:57-73 | One row: the event handed over and the row SENT, or nothing handed over, the attempt counted and the next one set off by the backoff |
| OutboxRelay.OutboxRelay.HandleBatch | src/outbox/outbox-relay.service.ts:57-77 | Each row gets the outcome of its own publish, events appear in batch order, and the loop stops at the first failed save, whose event is already out |
| OutboxRelay.OutboxRelay.Tick | src/outbox/outbox-relay.service.ts:39-79 | With the commit each published row of the batch is SENT without a next attempt and each other one FAILED with one attempt more and the next one a delay after its failure; rows outside the batch stay, and without the commit all do; events handed over stay handed over |
| OutboxRelay.EventsExactly | src/outbox/outbox-relay.service.ts:57-64 | The events of a batch are those of its published rows, in order, each with its row's order and creation time |
| Tables.BackoffTable | src/outbox/outbox-relay.service.ts:81-85 | The delays: 1, 2, 4, 8, 16 and 32 seconds, and a minute from the seventh failure on |
| Theorems.DueExactly | src/outbox/outbox-relay.service.ts:45-55 | A tick with room can lock an unlocked row exactly if it is PENDING or FAILED and has no next attempt or one at or before the time the tick read |
| Theorems.PickedFrom | src/outbox/outbox.service.ts:18-26 | A row as the worker wrote it can be taken by exactly the ticks from its time on |
| Theorems.RetriedFrom | src/outbox/outbox-relay.service.ts:69-85 | A row that failed at f for the n-th time can be taken again by exactly the ticks from f plus the n-th delay on |
| OutboxRelay.TickIsRun | src/outbox/outbox-relay.service.ts:39-79 | The tick, from a reading of the clock no later than its query, through any number of handled rows, to its commit or rollback, is a run of the machine with the same tables and events |
| Relays.TickCommitIsSerial | src/outbox/outbox-relay.service.ts:57-78 | What a tick writes from the rows it loaded is its handling applied to the rows as they are at the commit, and every one was still due |
| Theorems.RelayHandovers | src/outbox/outbox-relay.service.ts:45-77 | No row is held by two ticks; a SENT row was handed over at least once; a row is handed over at most once more than ticks holding it were rolled back, so exactly once when none was |
| Histories.HandoversCounted | src/outbox/outbox-relay.service.ts:45-77 | The same for the labels of every run: publishes of a row against rollbacks of ticks that held it |
| Theorems.SentForever | src/outbox/outbox-relay.service.ts:49-51 | No run changes a SENT row |
| Theorems.RetrySpacing | src/outbox/outbox-relay.service.ts:69-85 | A tick that picks a row up after n committed failures started no earlier than the first failure plus the n delays |
| Histories.FailuresDated | src/outbox/outbox-relay.service.ts:69-73 | The first failure it counts from is the clock at the row's first failed publish whose tick committed |
| Theorems.TotalBackoffClosed | src/outbox/outbox-relay.service.ts:81-85 | The n delays sum to 1000 times 2 to the n less one up to six, and to 63000 + 60000 (n - 6) beyond |
| Draining.AllPublished | src/outbox/outbox-relay.service.ts:57-68 | When nothing fails every row of the batch is handled as handed over |
| Draining.DrainsFrom | src/outbox/outbox-relay.service.ts:45-77 | After k such ticks the smaller of N and 50 k due rows are SENT, each once and by age, and no other row has changed |
| Draining.DrainsExactly | src/outbox/outbox-relay.service.ts:45-77 | Without failures or new rows, the N rows that are PENDING or FAILED and whose next attempt has come are all SENT after k ticks if and only if k is at least N/50 rounded up, and the batches together are then these rows, each once, oldest first |
| Draining.BatchExists | src/outbox/outbox-relay.service.ts:45-55 | The tick's query has an answer on every outbox |
| Draining.DrainExists | src/outbox/outbox-relay.service.ts:45-77 | Such ticks exist for any times |
| Draining.RunDrains | src/outbox/outbox-relay.service.ts:39-79 | From every state without an open tick there is a run of the machine with these k ticks; after it the due rows are all SENT if and only if k is at least N/50 rounded up, and the events are the batches in order |
| OrdersService.OrdersService.UpdateStatus | src/orders/orders.service.ts:334-344 | Goes through exactly from PENDING to PROCESSING or CANCELED and from PROCESSING to COMPLETE or CANCELED; otherwise nothing changes; then the row, as it has become, gets the columns in which the entity differs from the row the save loaded, which is the entity when nothing came in between |
| Theorems.StatusClimbs | src/orders/orders.service.ts:42-48 | Along every run from a reachable state the status of an order climbs PENDING, PROCESSING, COMPLETE or CANCELED, PROCESSED if and only if every save to it is timely, and then changes at most three times |
| Theorems.EdgesExactly | src/orders/orders.service.ts:42-48 | Along every run a status changes from PENDING to PROCESSING or CANCELED, from PROCESSING to COMPLETE or CANCELED, or by a worker to PROCESSED, and in no other way, if and only if every save to the order is timely |
| Theorems.ReadExactly | src/orders/orders.service.ts:334-342 | An update can start on exactly the orders and transitions of the table |
| Theorems.StatusStepExactly | src/orders/orders.service.ts:334-344 | In every reachable state a step moves an order's status down or sideways exactly when it is an untimely save of that order |
| UpdateRuns.UpdateIsRun | src/orders/orders.service.ts:334-344 | With any other labels between its read, its save's load and its save's write, the update is a run of the machine and leaves the tables as the service's method does |
| Theorems.StampedExactly | src/orders/orders.service.ts:277-344 | In every state along a run every order has processedAt set exactly when it is PROCESSED, if and only if no save along the run replaces PROCESSED having loaded its row before it was |
| Theorems.ProcessedStamped | src/orders/orders.service.ts:277-279 | A run of timely saves is such a run |
| StatusRace.SaveLeavesStamp | src/orders/orders.service.ts:334-344 | A run from the empty tables in which a save loads its row before the worker's commit and writes after it: the order ends CANCELED with a processing time |
| Theorems.UpdateFindsMoved | src/orders/orders.service.ts:334-344 | After a run of timely saves the row an update will write is the one it read, or one further up |
| StatusRace.SaveErasesProcessing | src/orders/orders.service.ts:334-344 | A run from the empty tables in which a cancellation that read PENDING erases a processing: the message stays processed, the outbox row stays, the order is CANCELED, and both the one-to-one correspondence and the serial execution fail |
| Tokens.AcceptedExactly | src/auth/strategies/jwt.strategy.ts:24-41 | In every reachable state an issued token is accepted exactly when it is unexpired, was never logged out, and carries its existing user's current version |
| Tokens.NeverAcceptedAgain | src/auth/auth.service.ts:41-61 | A token once logged out or without its user is refused at every later time, whatever is called, pruned or saved late in between |
| Tokens.RevokingCalls | src/user/user.service.ts:62-80 | A logout and a user's deletion make the token such a one, a logout that cannot be stored finds it so, and a revocation refuses the accepted tokens at once |
| Tokens.RevocationExactly | src/user/user.service.ts:50-80 | Along any calls after a revocation the user's version stays beyond the revoked one if and only if no save writes a revoked version over the one it loaded |
| Tokens.RevokedStaysRefused | src/user/user.service.ts:73-80 | Without such a save every token up to the revoked version is refused, also one that a login begun before the revocation signs after it |
| Tokens.RestorerReadBefore | src/user/user.service.ts:50-71 | The first save that undoes a revocation belongs to an `update` or `setRole` that read the user before it |
| Tokens.RestoreRevives | src/user/user.service.ts:50-71 | Such a save makes every token of the version it writes accepted again, exactly if it is unexpired and was not logged out |
| Tokens.RevokedThenRevived | src/user/user.service.ts:67-80 | A run from the empty tables in which a role change that straddles a revocation makes the revoked token accepted again |
| Tokens.PruneRefinement | src/auth/auth.service.ts:50-61 | Any schedule of prunes gives the same blocked answers and the same verdicts, at every later time, as never pruning |
| AuthService.AuthService.FindByEmail | src/user/user.service.ts:30-36 | Finds a user with the address exactly when there is one |
| AuthService.AuthService.FindForLogin | src/auth/auth.service.ts:21-23 | `login` up to the password comparison: keeps the user and the version it read, and fails exactly for an unknown address |
| AuthService.AuthService.Sign | src/auth/auth.service.ts:25-35 | Issues a token exactly for a right password, with the version that was read before the comparison and an expiry the configured seconds after the current second |
| Tokens.TokenLife | src/auth/auth.module.ts:20-30 | Over any calls, a token signed at t is accepted up to and not from the configured seconds after the second of t, as long as it is not logged out and its user stays and keeps the version |
| AuthService.AuthService.Register | src/user/user.service.ts:38-48 | A new user has the plain role and version 1; exactly a taken address is refused |
| AuthService.AuthService.ChangePassword | src/user/user.service.ts:56-60 | Changes the hash of an existing user and nothing else, so sessions stay valid |
| AuthService.AuthService.Logout | src/auth/auth.service.ts:41-48 | Stores the row exactly when the jti is new and the user still exists; is the logout step of the token machine |
| AuthService.AuthService.Blocked | src/auth/auth.service.ts:50-56 | Blocked exactly while an unexpired row has the jti |
| AuthService.AuthService.PruneExpiredBlacklist | src/auth/auth.service.ts:58-61 | Removes exactly the rows whose expiry has passed, so every later answer is as before; is the prune step |
| AuthService.AuthService.Validate | src/auth/strategies/jwt.strategy.ts:24-41 | Accepts exactly an unexpired, unblocked token of an existing user's current version, and gives that user; a missing user is told apart from the other refusals |
| AuthService.AuthService.RevokeAllSessions | src/user/user.service.ts:77-80 | Refuses every token of the version it found; is the revocation step for an existing user and otherwise changes nothing |
| AuthService.AuthService.ReadForEdit | src/user/user.service.ts:50-71 | `update` and `setRole` up to their save: the user as read with the new role or address in it, and nothing written |
| AuthService.AuthService.LoadForSave | src/user/user.service.ts:50-71 | The save's load, which fails exactly without a row |
| AuthService.AuthService.Save | src/user/user.service.ts:50-71 | The save's write: on a row still as loaded it leaves the entity, it never touches the password hash or another user, it changes nothing when the row is gone, and it throws exactly for a taken address |
| AuthService.AuthService.RemoveUser | src/user/user.service.ts:62-65 | Given whether other rows refer to the user, which is a parameter: refused exactly then; otherwise the user goes, and the user's blacklist rows with it |
| Sanitizer.SanitizeAt | src/common/interceptors/audit-log.interceptor.ts:21-30 | What is at a path of the result is the sanitized value at that path of the input, or nothing exactly when the path crosses a sensitive key |
| Sanitizer.SensitiveExactly | src/common/interceptors/audit-log.interceptor.ts:19 | A key is sensitive exactly when some part of it is password, secret, token, authorization or hash in any mix of cases |
| Sanitizer.SensitiveAnywhere | src/common/interceptors/audit-log.interceptor.ts:19 | Whatever stands before and after such a word, the key is sensitive |
| Sanitizer.PathsExactly | src/common/interceptors/audit-log.interceptor.ts:19-30 | The paths of the result are the input's paths that cross no key with one of the five words in it, with equal leaves and array lengths |
| Sanitizer.FixedPoints | src/common/interceptors/audit-log.interceptor.ts:19-30 | The result has no sensitive key at any depth, sanitizing is idempotent, and exactly the values without such keys are left as they are |

The row that `OutboxService.add` builds (src/outbox/outbox.service.ts:13-27) is the one
`Tables.ApplyProcess` inserts: pending, no attempts, due at once.

## Left out

- Tokens.AcceptedExactly: takes the logout and the check of a token each as one step, against one state of the tables.
- Tokens.NeverAcceptedAgain: speaks of logout and deletion; a revocation is the subject of `RevocationExactly`, because a late save can undo it.
- Theorems.NoLoss: starts at the publish; `create` publishes after its commit and outside the outbox, so a crash in between leaves an order without a message.
- OutboxRelay.TickIsRun: picks the batch by the query; the machine alone lets a tick lock any due unlocked rows, at most fifty, which only adds runs.
- Draining.DrainsExactly: ticks run one after another; overlapping ticks are covered by `RelayHandovers`.
- OrdersWorker.OrdersWorker.Consume: requeues the delivery at the end of the handler; a channel lost earlier, with the handler running on beside the redelivery, is the machine's `Detach` step.
- AuthService.AuthService.RemoveUser: takes as a parameter whether orders, payments, shipments or invoices refer to the user; these tables and the users are not in one state here.
- The payments and shipments that `updateStatus` loads and saves with the order.
- Removal of orders and of stock, and `StocksService`, which overwrites reservations without a lock.
- Messages put into `orders.process` by hand, bodies that are not JSON, and a body of `null`, which throws before any branch and is queued again for ever; the machine's messages come from `create`.
- The retry delay as a lapse of time in the machine; it is a result of `HandleMessage` only.
- Deadlock freedom: a deadlock is one of the failures of an open transaction.
- Failures of foreign keys, checks and integer ranges while a create writes; they are among the failures that can strike before the commit.
- The tick inside a live process: the timer, overlapping intervals and the `WORKERS_ENABLED` switch.
- The declaration of `domain.events`: the code never asserts that queue, so events are followed as far as `sendToQueue`.
- The constant `type` of an outbox row and of its event.
- The connection loop, prefetch and shutdown of `RabbitmqService`, and `status.changes`.
- Signing, bcrypt and the header parsing of passport-jwt; a checked token is one that was issued.
- Objects other than JSON values in `sanitize`, such as dates, and the rest of the interceptor.
- Floating-point error in the authorised total.
- Controllers, GraphQL, files, payments, shipping, products and pagination, which would only add easy members.
