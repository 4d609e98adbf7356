/** The order pipeline as a machine: any number of `create` requests, worker deliveries
    and relay ticks in flight over one database and one broker. A run is a sequence of
    labels; each label is one step of the code or one event of its environment. */
module Pipeline {
  import opened Basics
  import opened Tables

  // ---- create requests ----

  datatype Payment = Authorized | DeadlineExceeded | Unavailable | OtherError

  datatype Failure = Conflict | Timeout | PaymentDown | Internal

  datatype Outcome = Returned(order: nat, created: bool) | Threw(failure: Failure)

  datatype Phase =
    | Looking                   // before the idempotency lookup
    | Locking                   // transaction open, taking stock row locks
    | Validated                 // every line passed
    | Inserted                  // order row written, not committed
    | Reserving(lines: nat)     // items written, this many lines reserved
    | Raced                     // rolled back by a duplicate idempotency key
    | Committed                 // committed, not yet published
    | Published                 // published, payment call pending
    | Finished(outcome: Outcome)

  /** copies: the stock entities loaded under lock, as the request has changed them.
      A row is locked exactly while some request holds a copy of it. */
  datatype Request = Request(dto: CreateDto, phase: Phase, copies: map<int, Stock>, orderId: nat, committed: bool)

  // ---- broker ----

  datatype Msg = Msg(id: MessageId, orderId: nat, attempt: int, alwaysFail: bool)

  /** Where a copy of a message is. Every place but Queued is an unacknowledged delivery. */
  datatype Place =
    | Queued
    | Fetched     // handler started
    | InTx        // its transaction has inserted the dedup row
    | Done        // processFromQueue returned; ack next
    | Failed      // processFromQueue threw; retry or dead-letter next
    | Forwarded   // retry or dead letter published; ack next

  /** attached: the channel it was delivered on is still open. A handler whose channel is
      gone runs on, but can neither publish nor ack. */
  datatype Copy = Copy(msg: Msg, place: Place, attached: bool)

  function Fresh(msg: Msg): Copy {
    Copy(msg, Queued, true)
  }

  datatype Event = Event(row: nat, orderId: nat, createdAt: Millis)

  // ---- relay ----

  /** rows: the locked rows as loaded and then changed; handled: the rows already dealt with. */
  datatype Tick = Tick(asOf: Millis, rows: map<nat, OutboxRow>, handled: map<nat, Handling>)

  // ---- status updates ----

  /** An `updateStatus` under way: the entity it read and passed, and the row its save loads
      to see which columns differ. */
  datatype Update = Update(order: nat, to: Status, read: OrderRow, loaded: Option<OrderRow>)

  // ---- the whole system ----

  /** What has happened so far; no step of the code reads it. */
  datatype History = History(
    log: seq<Entry>,                  // committed transactions, in commit order
    published: map<MessageId, nat>,   // messages published by `create`, with their orders
    rowOf: map<MessageId, nat>,       // outbox row written for a processed message
    delivered: nat,
    redelivered: nat,
    doubled: bool,                    // a message already in a place came to another one
    rollbacks: map<nat, nat>,         // rolled-back ticks that held the row
    erased: set<nat>,                 // orders a save took out of PROCESSED
    firstFailure: map<nat, Millis>)   // first committed publish failure of the row

  datatype State = State(
    db: Db,
    nextOrderId: nat,
    requests: map<nat, Request>,
    copies: map<nat, Copy>,
    dead: seq<Msg>,
    events: seq<Event>,
    ticks: map<nat, Tick>,
    updates: map<nat, Update>,
    clock: Millis,
    past: History)

  const MAX_ATTEMPTS := 3
  const BATCH := 50

  function Init(stocks: map<int, Stock>, clock: Millis): State {
    State(Db(stocks, map[], map[], {}, map[]), 1, map[], map[], [], [], map[], map[], clock,
          History([], map[], map[], 0, 0, false, map[], {}, map[]))
  }

  // ---- steps of one create request ----

  datatype CreateStep =
    | Lookup
    | LockRow(product: int)
    | Validate
    | Insert
    | LookupAgain
    | SaveItems
    | ReserveLine
    | Commit
    | Fail                        // any database error, or a crash, before the commit
    | Publish(m: MessageId, copy: nat)
    | FailAfterCommit             // publishing throws, or a crash after the commit
    | Pay(result: Payment)

  predicate InTransaction(phase: Phase) {
    phase.Locking? || phase.Validated? || phase.Inserted? || phase.Reserving?
  }

  /** An uncommitted order row with its key sits in the unique index. */
  predicate HoldsKey(q: Request) {
    q.phase.Inserted? || q.phase.Reserving?
  }

  predicate RowLocked(requests: map<nat, Request>, p: int) {
    exists r :: r in requests && p in requests[r].copies
  }

  /** Inserting the key would wait for another open transaction. */
  predicate KeyWaits(requests: map<nat, Request>, key: Option<string>) {
    key.Some? && exists r :: r in requests && HoldsKey(requests[r]) && requests[r].dto.key == key
  }

  predicate AllLocked(q: Request, stocks: map<int, Stock>) {
    forall p :: p in Products(q.dto.items) && p in stocks ==> p in q.copies
  }

  predicate CanCreate(s: State, r: nat, step: CreateStep) {
    r in s.requests &&
    var q := s.requests[r];
    match step
    case Lookup => q.phase.Looking?
    case LockRow(p) =>
      q.phase.Locking? && p in Products(q.dto.items) && p in s.db.stocks && !RowLocked(s.requests, p)
    case Validate => q.phase.Locking? && AllLocked(q, s.db.stocks)
    case Insert => q.phase.Validated? && !KeyWaits(s.requests, q.dto.key)
    case LookupAgain => q.phase.Raced?
    case SaveItems => q.phase.Inserted?
    case ReserveLine =>
      && q.phase.Reserving? && q.phase.lines < |q.dto.items|
      && q.dto.items[q.phase.lines].product in q.copies
    case Commit => q.phase.Reserving? && q.phase.lines == |q.dto.items|
    case Fail => InTransaction(q.phase) || q.phase.Looking? || q.phase.Raced?
    case Publish(m, copy) => q.phase.Committed? && m !in s.past.published && copy !in s.copies
    case FailAfterCommit => q.phase.Committed? || q.phase.Published?
    case Pay(_) => q.phase.Published?
  }

  /** The order row the key's lookup finds. */
  ghost function OrderWithKey(orders: map<nat, OrderRow>, key: string): (o: nat)
    requires KeyTaken(orders, key)
    ensures o in orders && orders[o].key == Some(key)
  {
    var o :| o in orders && orders[o].key == Some(key);
    o
  }

  function RolledBack(q: Request, phase: Phase): Request {
    q.(phase := phase, copies := map[])
  }

  function PaymentOutcome(orderId: nat, result: Payment): Outcome {
    match result
    case Authorized => Returned(orderId, true)
    case DeadlineExceeded => Threw(Timeout)
    case Unavailable => Threw(PaymentDown)
    case OtherError => Threw(Internal)
  }

  /** The request after a step that concerns no other part of the state. */
  ghost function Local(s: State, q: Request, step: CreateStep): Request
    requires !step.ReserveLine?
        || (q.phase.Reserving? && q.phase.lines < |q.dto.items| && q.dto.items[q.phase.lines].product in q.copies)
    requires step.LockRow? ==> step.product in s.db.stocks
  {
    match step
    case Lookup =>
      if q.dto.key.Some? && KeyTaken(s.db.orders, q.dto.key.value)
      then q.(phase := Finished(Returned(OrderWithKey(s.db.orders, q.dto.key.value), false)))
      else q.(phase := Locking)
    case LockRow(p) => q.(copies := q.copies[p := s.db.stocks[p]])
    case Validate =>
      if Available(q.copies, q.dto.items) then q.(phase := Validated) else RolledBack(q, Finished(Threw(Conflict)))
    case Insert =>
      if KeyFree(s.db.orders, q.dto.key) then q.(phase := Inserted, orderId := s.nextOrderId) else RolledBack(q, Raced)
    case LookupAgain =>
      if q.dto.key.Some? && KeyTaken(s.db.orders, q.dto.key.value)
      then q.(phase := Finished(Returned(OrderWithKey(s.db.orders, q.dto.key.value), false)))
      else q.(phase := Finished(Threw(Internal)))
    case SaveItems => q.(phase := Reserving(0))
    case ReserveLine =>
      var line := q.dto.items[q.phase.lines];
      q.(phase := Reserving(q.phase.lines + 1),
         copies := q.copies[line.product := Reserve(q.copies[line.product], line.amount)])
    case Commit => RolledBack(q, Committed).(committed := true)
    case Fail => RolledBack(q, Finished(Threw(Internal)))
    case Publish(_, _) => q.(phase := Published)
    case FailAfterCommit => q.(phase := Finished(Threw(Internal)))
    case Pay(result) => q.(phase := Finished(PaymentOutcome(q.orderId, result)))
  }

  /** What a committing create writes: the loaded stock entities, as absolute values. */
  function CommitCreate(db: Db, q: Request): Db {
    db.(stocks := db.stocks + q.copies,
        orders := db.orders[q.orderId := NewOrder(q.dto)],
        items := db.items[q.orderId := StoredItems(q.dto.items)])
  }

  ghost function DoCreate(s: State, r: nat, step: CreateStep): State
    requires CanCreate(s, r, step)
  {
    var q := s.requests[r];
    var s' := s.(requests := s.requests[r := Local(s, q, step)]);
    match step
    case Insert => s'.(nextOrderId := s.nextOrderId + 1)
    case Commit =>
      s'.(db := CommitCreate(s.db, q), past := s.past.(log := s.past.log + [Created(r, q.orderId, q.dto)]))
    case Publish(m, copy) =>
      s'.(copies := s.copies[copy := Fresh(Msg(m, q.orderId, 1, false))],
          past := s.past.(published := s.past.published[m := q.orderId]))
    case _ => s'
  }

  // ---- steps of one delivery ----

  datatype WorkStep =
    | Deliver
    | InsertDedup
    | CommitProcessed(row: nat, at: Times)
    | Throw                       // processFromQueue throws: its transaction is rolled back
    | Forward(copy: nat)          // retry with attempt + 1, or dead-letter
    | Ack
    | Redeliver                   // crash or nack: back to the queue, and the handler is over
    | Detach(copy: nat)           // channel lost: back to the queue, and the handler runs on
    | Vanish                      // a handler without a channel is over

  predicate DedupWaits(copies: map<nat, Copy>, m: MessageId) {
    exists c :: c in copies && copies[c].place.InTx? && copies[c].msg.id == m
  }

  predicate CanWork(s: State, c: nat, step: WorkStep) {
    c in s.copies &&
    var copy := s.copies[c];
    match step
    case Deliver => copy.place.Queued? && copy.attached
    case InsertDedup => copy.place.Fetched? && !DedupWaits(s.copies, copy.msg.id)
    case CommitProcessed(row, at) =>
      && copy.place.InTx? && !copy.msg.alwaysFail && copy.msg.orderId in s.db.orders
      && row !in s.db.outbox && Past(at, s.clock)
    case Throw => copy.place.Fetched? || copy.place.InTx?
    case Forward(copy') => copy.place.Failed? && copy.attached && copy' !in s.copies
    case Ack => copy.attached && (copy.place.Done? || copy.place.Forwarded?)
    case Redeliver => copy.attached && !copy.place.Queued?
    case Detach(copy') => copy.attached && !copy.place.Queued? && copy' !in s.copies
    case Vanish => !copy.attached
  }

  /** A delivery is put back after it was settled, or committed after it was put back. */
  predicate Doubles(copy: Copy, step: WorkStep) {
    match step
    case Redeliver => copy.place.Done? || copy.place.Forwarded?
    case Detach(_) => copy.place.Done? || copy.place.Forwarded?
    case CommitProcessed(_, _) => !copy.attached
    case _ => false
  }

  function Move(copies: map<nat, Copy>, c: nat, place: Place): map<nat, Copy>
    requires c in copies
  {
    copies[c := copies[c].(place := place)]
  }

  function Redelivered(past: History, copy: Copy, step: WorkStep): History {
    past.(redelivered := past.redelivered + 1, doubled := past.doubled || Doubles(copy, step))
  }

  function DoWork(s: State, c: nat, step: WorkStep): State
    requires CanWork(s, c, step)
  {
    var msg := s.copies[c].msg;
    match step
    case Deliver =>
      s.(copies := Move(s.copies, c, Fetched), past := s.past.(delivered := s.past.delivered + 1))
    case InsertDedup =>
      // a committed dedup row aborts the transaction: skipped, nothing written
      s.(copies := Move(s.copies, c, if msg.id in s.db.processed then Done else InTx))
    case CommitProcessed(row, at) =>
      s.(copies := Move(s.copies, c, Done),
         db := ApplyProcess(s.db, msg.id, msg.orderId, row, at),
         past := s.past.(log := s.past.log + [ProcessedMessage(msg.id, msg.orderId, row, at)],
                         rowOf := s.past.rowOf[msg.id := row],
                         doubled := s.past.doubled || Doubles(s.copies[c], step)))
    case Throw => s.(copies := Move(s.copies, c, Failed))
    case Forward(copy') =>
      var moved := Move(s.copies, c, Forwarded);
      if msg.attempt >= MAX_ATTEMPTS then s.(copies := moved, dead := s.dead + [msg])
      else s.(copies := moved[copy' := Fresh(msg.(attempt := msg.attempt + 1))])
    case Ack => s.(copies := s.copies - {c})
    case Redeliver =>
      s.(copies := Move(s.copies, c, Queued), past := Redelivered(s.past, s.copies[c], step))
    case Detach(copy') =>
      s.(copies := s.copies[c := s.copies[c].(attached := false)][copy' := Fresh(msg)],
         past := Redelivered(s.past, s.copies[c], step))
    case Vanish => s.(copies := s.copies - {c})
  }

  // ---- steps of one relay tick ----

  datatype RelayStep =
    | Begin(asOf: Millis)
    | LockDue(row: nat)
    | Handle(row: nat, ok: bool)
    | CommitTick
    | Rollback                    // a failed save or a crash

  predicate HeldByTick(ticks: map<nat, Tick>, row: nat) {
    exists t :: t in ticks && row in ticks[t].rows
  }

  predicate CanRelay(s: State, t: nat, step: RelayStep) {
    match step
    case Begin(asOf) => t !in s.ticks && asOf <= s.clock
    case LockDue(row) =>
      && t in s.ticks && row in s.db.outbox && !HeldByTick(s.ticks, row)
      && Due(s.db.outbox[row], s.ticks[t].asOf)
      && |s.ticks[t].rows| < BATCH && s.ticks[t].handled == map[]
    case Handle(row, _) => t in s.ticks && row in s.ticks[t].rows && row !in s.ticks[t].handled
    case CommitTick => t in s.ticks && s.ticks[t].handled.Keys == s.ticks[t].rows.Keys
    case Rollback => t in s.ticks
  }

  function Rollbacks(rollbacks: map<nat, nat>, row: nat): nat {
    if row in rollbacks then rollbacks[row] else 0
  }

  function CountRollback(rollbacks: map<nat, nat>, rows: set<nat>): map<nat, nat> {
    rollbacks + map r | r in rows :: Rollbacks(rollbacks, r) + 1
  }

  /** Rows whose first failure this tick commits. */
  function FirstFailures(tick: Tick): map<nat, Millis> {
    map r | r in tick.handled && r in tick.rows && tick.handled[r].FailedAt? && tick.rows[r].attempts == 1 ::
      tick.handled[r].at
  }

  function DoRelay(s: State, t: nat, step: RelayStep): State
    requires CanRelay(s, t, step)
  {
    match step
    case Begin(asOf) => s.(ticks := s.ticks[t := Tick(asOf, map[], map[])])
    case LockDue(row) =>
      var tick := s.ticks[t];
      s.(ticks := s.ticks[t := tick.(rows := tick.rows[row := s.db.outbox[row]])])
    case Handle(row, ok) =>
      var tick := s.ticks[t];
      var m := tick.rows[row];
      var h := if ok then Handed else FailedAt(s.clock);
      s.(ticks := s.ticks[t := tick.(rows := tick.rows[row := HandleRow(m, h)], handled := tick.handled[row := h])],
         events := if ok then s.events + [Event(row, m.orderId, m.createdAt)] else s.events)
    case CommitTick =>
      var tick := s.ticks[t];
      s.(db := s.db.(outbox := s.db.outbox + tick.rows),
         ticks := s.ticks - {t},
         past := s.past.(log := s.past.log + [Relayed(tick.asOf, tick.handled)],
                         firstFailure := s.past.firstFailure + FirstFailures(tick)))
    case Rollback =>
      var tick := s.ticks[t];
      s.(ticks := s.ticks - {t},
         past := s.past.(rollbacks := CountRollback(s.past.rollbacks, tick.rows.Keys)))
  }

  // ---- steps of one status update ----

  datatype StatusStep =
    | ReadOrder(order: nat, to: Status)   // findOne, and the transition is allowed
    | LoadRow                             // save loads the row to compare it with the entity
    | WriteRow                            // save writes the columns that differ

  predicate CanStatus(s: State, u: nat, step: StatusStep) {
    match step
    case ReadOrder(o, to) => u !in s.updates && o in s.db.orders && Allowed(s.db.orders[o].status, to)
    case LoadRow => u in s.updates && s.updates[u].loaded.None? && s.updates[u].order in s.db.orders
    case WriteRow => u in s.updates && s.updates[u].loaded.Some? && s.updates[u].order in s.db.orders
  }

  /** The row after the save: a column is written when the entity differs from the loaded
      row in it, and is otherwise as it has become. */
  function Saved(current: OrderRow, u: Update): OrderRow
    requires u.loaded.Some?
  {
    var loaded := u.loaded.value;
    current.(status := if u.to != loaded.status then u.to else current.status,
             processedAt := if u.read.processedAt != loaded.processedAt then u.read.processedAt
                            else current.processedAt)
  }

  function SaveEntries(current: OrderRow, u: Update): seq<Entry>
    requires u.loaded.Some?
  {
    var row := Saved(current, u);
    if row == current then []
    else if Allowed(current.status, u.to) && row == current.(status := u.to) then [StatusSet(u.order, u.to)]
    else [StatusOverwritten(u.order, u.to, row.status, row.processedAt)]
  }

  function DoStatus(s: State, u: nat, step: StatusStep): State
    requires CanStatus(s, u, step)
  {
    match step
    case ReadOrder(o, to) => s.(updates := s.updates[u := Update(o, to, s.db.orders[o], None)])
    case LoadRow =>
      s.(updates := s.updates[u := s.updates[u].(loaded := Some(s.db.orders[s.updates[u].order]))])
    case WriteRow =>
      var update := s.updates[u];
      var o, current := update.order, s.db.orders[update.order];
      var row := Saved(current, update);
      s.(updates := s.updates - {u},
         db := s.db.(orders := s.db.orders[o := row]),
         past := s.past.(log := s.past.log + SaveEntries(current, update),
                         erased := if current.status == Processed && row.status != Processed
                                   then s.past.erased + {o} else s.past.erased))
  }

  // ---- runs ----

  datatype Label =
    | Arrive(request: nat, dto: CreateDto)
    | Create(request: nat, create: CreateStep)
    | Work(copy: nat, work: WorkStep)
    | Relay(tick: nat, relay: RelayStep)
    | UpdateStatus(update: nat, status: StatusStep)
    | Pass(time: Millis)

  predicate Enabled(s: State, l: Label) {
    match l
    case Arrive(r, dto) => r !in s.requests && WellFormed(dto)
    case Create(r, step) => CanCreate(s, r, step)
    case Work(c, step) => CanWork(s, c, step)
    case Relay(t, step) => CanRelay(s, t, step)
    case UpdateStatus(u, step) => CanStatus(s, u, step)
    case Pass(time) => s.clock <= time
  }

  ghost function Step(s: State, l: Label): State
    requires Enabled(s, l)
  {
    match l
    case Arrive(r, dto) => s.(requests := s.requests[r := Request(dto, Looking, map[], 0, false)])
    case Create(r, step) => DoCreate(s, r, step)
    case Work(c, step) => DoWork(s, c, step)
    case Relay(t, step) => DoRelay(s, t, step)
    case UpdateStatus(u, step) => DoStatus(s, u, step)
    case Pass(time) => s.(clock := time)
  }

  /** Every label of ls is enabled when its turn comes. */
  ghost predicate CanRun(s: State, ls: seq<Label>)
    decreases |ls|
  {
    ls == [] || (Enabled(s, ls[0]) && CanRun(Step(s, ls[0]), ls[1..]))
  }

  ghost function Run(s: State, ls: seq<Label>): State
    requires CanRun(s, ls)
    decreases |ls|
  {
    if ls == [] then s else Run(Step(s, ls[0]), ls[1..])
  }

  lemma {:induction false} RunAppend(s: State, ls: seq<Label>, more: seq<Label>)
    requires CanRun(s, ls) && CanRun(Run(s, ls), more)
    ensures CanRun(s, ls + more) && Run(s, ls + more) == Run(Run(s, ls), more)
    decreases |ls|
  {
    if ls == [] {
      assert ls + more == more;
    } else {
      RunAppend(Step(s, ls[0]), ls[1..], more);
      assert (ls + more)[1..] == ls[1..] + more;
    }
  }

  lemma {:induction false} RunSplit(s: State, ls: seq<Label>, more: seq<Label>)
    requires CanRun(s, ls + more)
    ensures CanRun(s, ls) && CanRun(Run(s, ls), more) && Run(s, ls + more) == Run(Run(s, ls), more)
    decreases |ls|
  {
    if ls == [] {
      assert ls + more == more;
    } else {
      assert (ls + more)[1..] == ls[1..] + more;
      RunSplit(Step(s, ls[0]), ls[1..], more);
    }
  }

  lemma RunOne(s: State, l: Label)
    requires Enabled(s, l)
    ensures CanRun(s, [l]) && Run(s, [l]) == Step(s, l)
  {
    assert [l][1..] == [];
    assert CanRun(Step(s, l), []) && Run(Step(s, l), []) == Step(s, l);
  }

  /** Extending a run by the label that leads from s to s'. */
  lemma Extend(s0: State, ls: seq<Label>, s: State, l: Label, s': State)
    requires CanRun(s0, ls) && Run(s0, ls) == s && Enabled(s, l) && Step(s, l) == s'
    ensures CanRun(s0, ls + [l]) && Run(s0, ls + [l]) == s'
  {
    RunOne(s, l);
    RunAppend(s0, ls, [l]);
  }
}
