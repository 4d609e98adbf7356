/** The database tables the order pipeline touches, and the effect of each of its
    transactions on them when the transaction runs alone. */
module Tables {
  import opened Basics

  type MessageId = nat

  // ---- orders, order_items, stocks ----

  datatype Status = Pending | Processing | Complete | Canceled | Processed

  datatype Line = Line(product: int, amount: int, price: real, discount: real)

  datatype CreateDto = CreateDto(userId: int, addressId: Option<int>, key: Option<string>, items: seq<Line>)

  /** What the request validators demand before `create` is called. Nothing there
      forbids two lines for one product. */
  predicate WellFormed(dto: CreateDto) {
    && dto.items != []
    && dto.key != Some("")
    && forall i :: 0 <= i < |dto.items| ==>
      dto.items[i].amount >= 1 && dto.items[i].price >= 0.0 && dto.items[i].discount >= 0.0
  }

  datatype Stock = Stock(stock: int, reserved: int)

  datatype OrderRow = OrderRow(userId: int, addressId: Option<int>, key: Option<string>,
                               status: Status, processedAt: Option<Millis>)

  datatype Item = Item(product: int, amount: int, price: real, discount: real)

  // ---- outbox_messages ----

  datatype OutboxStatus = OutPending | OutSent | OutFailed

  datatype OutboxRow = OutboxRow(orderId: nat, createdAt: Millis, status: OutboxStatus,
                                 attempts: nat, nextAttemptAt: Option<Millis>)

  /** The committed contents of the database. */
  datatype Db = Db(stocks: map<int, Stock>,
                   orders: map<nat, OrderRow>,
                   items: map<nat, seq<Item>>,
                   processed: set<MessageId>,
                   outbox: map<nat, OutboxRow>)

  // ---- order creation ----

  function Products(items: seq<Line>): set<int> {
    set i | 0 <= i < |items| :: items[i].product
  }

  /** Units of product p over all lines. */
  function SumFor(items: seq<Line>, p: int): int {
    if items == [] then 0
    else
      var last := items[|items| - 1];
      SumFor(items[..|items| - 1], p) + if last.product == p then last.amount else 0
  }

  lemma {:induction false} SumForNone(items: seq<Line>, p: int)
    requires p !in Products(items)
    ensures SumFor(items, p) == 0
  {
    if items != [] {
      var n := |items| - 1;
      assert items[n].product in Products(items);
      assert forall q :: q in Products(items[..n]) ==> q in Products(items) by {
        forall i | 0 <= i < n
          ensures items[..n][i].product in Products(items)
        {
          assert items[i].product in Products(items);
        }
      }
      SumForNone(items[..n], p);
    }
  }

  function Reserve(s: Stock, amount: int): Stock {
    s.(reserved := s.reserved + amount)
  }

  /** The validation loop's verdict on one line: each line is compared with the
      unreserved stock on its own. */
  predicate LineAvailable(stocks: map<int, Stock>, line: Line) {
    line.product in stocks && stocks[line.product].stock - stocks[line.product].reserved >= line.amount
  }

  predicate Available(stocks: map<int, Stock>, items: seq<Line>) {
    forall i :: 0 <= i < |items| ==> LineAvailable(stocks, items[i])
  }

  /** Rounding of a nonnegative amount to two decimals, ties upwards. */
  function Cents(x: real): int {
    (x * 100.0 + 0.5).Floor
  }

  function Round2(x: real): real {
    Cents(x) as real / 100.0
  }

  function Stored(line: Line): Item {
    Item(line.product, line.amount, Round2(line.price), Round2(line.discount))
  }

  function StoredItems(items: seq<Line>): seq<Item> {
    seq(|items|, i requires 0 <= i < |items| => Stored(items[i]))
  }

  function NewOrder(dto: CreateDto): OrderRow {
    OrderRow(dto.userId, dto.addressId, dto.key, Pending, None)
  }

  predicate KeyTaken(orders: map<nat, OrderRow>, key: string) {
    exists o :: o in orders && orders[o].key == Some(key)
  }

  /** The partial unique index on orders.idempotency_key lets the row in. */
  predicate KeyFree(orders: map<nat, OrderRow>, key: Option<string>) {
    key.Some? ==> !KeyTaken(orders, key.value)
  }

  function ReserveAll(stocks: map<int, Stock>, items: seq<Line>): map<int, Stock> {
    map p | p in stocks :: Reserve(stocks[p], SumFor(items, p))
  }

  function ApplyCreate(db: Db, id: nat, dto: CreateDto): Db {
    db.(stocks := ReserveAll(db.stocks, dto.items),
        orders := db.orders[id := NewOrder(dto)],
        items := db.items[id := StoredItems(dto.items)])
  }

  // ---- order status ----

  predicate Allowed(from: Status, to: Status) {
    match from
    case Pending => to == Processing || to == Canceled
    case Processing => to == Complete || to == Canceled
    case _ => false
  }

  function Rank(status: Status): nat {
    match status
    case Pending => 0
    case Processing => 1
    case Complete => 2
    case Canceled => 2
    case Processed => 3
  }

  function ApplyStatus(db: Db, id: nat, to: Status): Db
    requires id in db.orders
  {
    db.(orders := db.orders[id := db.orders[id].(status := to)])
  }

  function ApplyColumns(db: Db, id: nat, status: Status, processedAt: Option<Millis>): Db
    requires id in db.orders
  {
    db.(orders := db.orders[id := db.orders[id].(status := status, processedAt := processedAt)])
  }

  /** The times a worker's transaction reads off clocks before its commit: the order's
      processedAt, the outbox row's nextAttemptAt, and its createdAt. */
  datatype Times = Times(processed: Millis, due: Millis, created: Millis)

  predicate Past(at: Times, clock: Millis) {
    at.processed <= clock && at.due <= clock && at.created <= clock
  }

  /** The worker's transaction: dedup row, order update from any status, outbox row. */
  function ApplyProcess(db: Db, m: MessageId, orderId: nat, row: nat, at: Times): Db
    requires orderId in db.orders
  {
    db.(processed := db.processed + {m},
        orders := db.orders[orderId := db.orders[orderId].(status := Processed, processedAt := Some(at.processed))],
        outbox := db.outbox[row := OutboxRow(orderId, at.created, OutPending, 0, Some(at.due))])
  }

  // ---- outbox relay ----

  datatype Handling = Handed | FailedAt(at: Millis)

  function Pow2(n: nat): nat {
    if n == 0 then 1 else 2 * Pow2(n - 1)
  }

  /** Delay after the n-th failure, in milliseconds. */
  function Backoff(n: nat): nat {
    var doubled := 1000 * Pow2(if n == 0 then 0 else n - 1);
    if doubled < 60000 then doubled else 60000
  }

  lemma Pow2Monotone(m: nat, n: nat)
    requires m <= n
    ensures Pow2(m) <= Pow2(n)
    decreases n
  {
    if m < n { Pow2Monotone(m, n - 1); }
  }

  lemma BackoffTable(n: nat)
    ensures n == 1 ==> Backoff(n) == 1000
    ensures n == 2 ==> Backoff(n) == 2000
    ensures n == 3 ==> Backoff(n) == 4000
    ensures n == 4 ==> Backoff(n) == 8000
    ensures n == 5 ==> Backoff(n) == 16000
    ensures n == 6 ==> Backoff(n) == 32000
    ensures n >= 7 ==> Backoff(n) == 60000
  {
    assert Pow2(1) == 2 && Pow2(2) == 4 && Pow2(3) == 8;
    assert Pow2(4) == 16 && Pow2(5) == 32 && Pow2(6) == 64;
    if n >= 7 { Pow2Monotone(6, n - 1); }
  }

  function HandleRow(row: OutboxRow, h: Handling): OutboxRow {
    match h
    case Handed => row.(status := OutSent, nextAttemptAt := None)
    case FailedAt(at) =>
      row.(status := OutFailed, attempts := row.attempts + 1, nextAttemptAt := Some(at + Backoff(row.attempts + 1)))
  }

  predicate Due(row: OutboxRow, now: Millis) {
    row.status != OutSent && (row.nextAttemptAt.Some? ==> row.nextAttemptAt.value <= now)
  }

  function HandleRows(outbox: map<nat, OutboxRow>, handled: map<nat, Handling>): map<nat, OutboxRow> {
    map r | r in outbox :: if r in handled then HandleRow(outbox[r], handled[r]) else outbox[r]
  }

  // ---- serial execution of committed transactions ----

  /** A committed transaction, with the choices the database and clock made for it. A
      status update is `StatusSet` when the row it reached allowed the transition, and
      otherwise `StatusOverwritten`, with what became of the row. */
  datatype Entry =
    | Created(request: nat, id: nat, dto: CreateDto)
    | ProcessedMessage(m: MessageId, orderId: nat, row: nat, at: Times)
    | StatusSet(order: nat, to: Status)
    | StatusOverwritten(order: nat, to: Status, status: Status, processedAt: Option<Millis>)
    | Relayed(asOf: Millis, handled: map<nat, Handling>)

  /** The transaction, run alone on db, would commit. */
  predicate Accepts(db: Db, e: Entry) {
    match e
    case Created(_, id, dto) => id !in db.orders && KeyFree(db.orders, dto.key) && Available(db.stocks, dto.items)
    case ProcessedMessage(m, orderId, row, _) => m !in db.processed && orderId in db.orders && row !in db.outbox
    case StatusSet(id, to) => id in db.orders && Allowed(db.orders[id].status, to)
    case StatusOverwritten(id, _, _, _) => id in db.orders
    case Relayed(asOf, handled) => forall r :: r in handled ==> r in db.outbox && Due(db.outbox[r], asOf)
  }

  function Apply(db: Db, e: Entry): Db
    requires Accepts(db, e)
  {
    match e
    case Created(_, id, dto) => ApplyCreate(db, id, dto)
    case ProcessedMessage(m, orderId, row, at) => ApplyProcess(db, m, orderId, row, at)
    case StatusSet(id, to) => ApplyStatus(db, id, to)
    case StatusOverwritten(id, _, status, processedAt) => ApplyColumns(db, id, status, processedAt)
    case Relayed(_, handled) => db.(outbox := HandleRows(db.outbox, handled))
  }

  /** Runs the transactions of log one at a time, in order, from db0; None when one of
      them is refused where it runs. */
  function Replay(db0: Db, log: seq<Entry>): Option<Db> {
    if log == [] then Some(db0)
    else
      match Replay(db0, log[..|log| - 1])
      case None => None
      case Some(db) => if Accepts(db, log[|log| - 1]) then Some(Apply(db, log[|log| - 1])) else None
  }

  function EmptyDb(stocks: map<int, Stock>): Db {
    Db(stocks, map[], map[], {}, map[])
  }

  lemma ReplaySnoc(db0: Db, log: seq<Entry>, db: Db, e: Entry)
    requires Replay(db0, log) == Some(db) && Accepts(db, e)
    ensures Replay(db0, log + [e]) == Some(Apply(db, e))
  {
    assert (log + [e])[..|log|] == log;
  }
}
