/** What every step keeps about the open `create` transactions and the tables they
    write: row locks protect the loaded stock, the unique index protects the keys, and
    the database is always the serial execution of the committed transactions. */
module Transactions {
  import opened Basics
  import opened Tables
  import opened Pipeline

  // ---- stock rows under lock ----

  function ReservedLines(phase: Phase): nat {
    if phase.Reserving? then phase.lines else 0
  }

  /** A loaded entity differs from the committed row by exactly the lines this request
      has reserved on it. */
  ghost predicate CopiesOk(q: Request, stocks: map<int, Stock>) {
    && ReservedLines(q.phase) <= |q.dto.items|
    && q.copies.Keys <= stocks.Keys
    && q.copies.Keys <= Products(q.dto.items)
    && (forall p :: p in q.copies ==>
          q.copies[p] == Reserve(stocks[p], SumFor(q.dto.items[..ReservedLines(q.phase)], p)))
    && (!q.phase.Locking? ==> Products(q.dto.items) <= q.copies.Keys && Available(stocks, q.dto.items))
  }

  ghost predicate StockOk(q: Request, stocks: map<int, Stock>) {
    if InTransaction(q.phase) then CopiesOk(q, stocks) else q.copies == map[]
  }

  ghost predicate StockInv(requests: map<nat, Request>, stocks: map<int, Stock>) {
    && (forall r :: r in requests ==> StockOk(requests[r], stocks))
    && (forall r1, r2, p ::
          (r1 in requests && r2 in requests && p in requests[r1].copies && p in requests[r2].copies ==> r1 == r2))
  }

  lemma StockReserveLine(q: Request, stocks: map<int, Stock>)
    requires CopiesOk(q, stocks) && q.phase.Reserving? && q.phase.lines < |q.dto.items|
    requires q.dto.items[q.phase.lines].product in q.copies
    ensures var line := q.dto.items[q.phase.lines];
            CopiesOk(q.(phase := Reserving(q.phase.lines + 1),
                        copies := q.copies[line.product := Reserve(q.copies[line.product], line.amount)]), stocks)
  {
    var k := q.phase.lines;
    assert q.dto.items[..k + 1][..k] == q.dto.items[..k];
  }

  lemma StockValidated(q: Request, stocks: map<int, Stock>)
    requires CopiesOk(q, stocks) && q.phase.Locking? && AllLocked(q, stocks) && Available(q.copies, q.dto.items)
    ensures CopiesOk(q.(phase := Validated), stocks)
  {
    forall i | 0 <= i < |q.dto.items|
      ensures LineAvailable(stocks, q.dto.items[i])
    {
      assert LineAvailable(q.copies, q.dto.items[i]);
    }
  }

  lemma StockLocal(s: State, r: nat, step: CreateStep)
    requires StockInv(s.requests, s.db.stocks) && CanCreate(s, r, step) && !step.Commit?
    ensures StockOk(Local(s, s.requests[r], step), s.db.stocks)
  {
    var q := s.requests[r];
    assert StockOk(q, s.db.stocks);
    if step.ReserveLine? {
      StockReserveLine(q, s.db.stocks);
    } else if step.Validate? && Available(q.copies, q.dto.items) {
      StockValidated(q, s.db.stocks);
    }
  }

  /** Replacing one request by one that holds no row of the others. */
  lemma StockSet(requests: map<nat, Request>, stocks: map<int, Stock>, r: nat, q: Request)
    requires StockInv(requests, stocks) && StockOk(q, stocks)
    requires forall x, p :: x in requests && x != r && p in requests[x].copies ==> p !in q.copies
    ensures StockInv(requests[r := q], stocks)
  {
  }

  lemma StockAfterCreate(s: State, r: nat, step: CreateStep)
    requires StockInv(s.requests, s.db.stocks) && CanCreate(s, r, step) && !step.Commit?
    ensures StockInv(DoCreate(s, r, step).requests, DoCreate(s, r, step).db.stocks)
  {
    var q' := Local(s, s.requests[r], step);
    StockLocal(s, r, step);
    assert forall p :: p in q'.copies ==> p in s.requests[r].copies || (step.LockRow? && p == step.product);
    assert step.LockRow? ==> forall x :: x in s.requests ==> step.product !in s.requests[x].copies;
    StockSet(s.requests, s.db.stocks, r, q');
  }

  lemma StockAfterCommit(s: State, r: nat)
    requires StockInv(s.requests, s.db.stocks) && CanCreate(s, r, Commit)
    ensures StockInv(DoCreate(s, r, Commit).requests, DoCreate(s, r, Commit).db.stocks)
  {
    var q := s.requests[r];
    var stocks' := s.db.stocks + q.copies;
    var requests' := s.requests[r := Local(s, q, Commit)];
    forall x | x in requests'
      ensures StockOk(requests'[x], stocks')
    {
      if x != r { StockFrame(s.requests[x], s.db.stocks, stocks'); }
    }
  }

  /** Committing changes nothing a request with disjoint locks has seen. */
  lemma StockFrame(q: Request, stocks: map<int, Stock>, stocks': map<int, Stock>)
    requires StockOk(q, stocks) && stocks.Keys <= stocks'.Keys
    requires forall p :: p in q.copies && p in stocks ==> stocks'[p] == stocks[p]
    ensures StockOk(q, stocks')
  {
    if InTransaction(q.phase) && !q.phase.Locking? {
      forall i | 0 <= i < |q.dto.items|
        ensures LineAvailable(stocks', q.dto.items[i])
      {
        assert LineAvailable(stocks, q.dto.items[i]);
        assert q.dto.items[i].product in Products(q.dto.items);
      }
    }
  }

  // ---- order ids and idempotency keys ----

  /** The request's transaction has drawn an order id that only it may use. */
  predicate Owns(q: Request) {
    HoldsKey(q) || q.committed
  }

  ghost predicate OutcomeOk(q: Request, orders: map<nat, OrderRow>)
    requires q.phase.Finished?
  {
    match q.phase.outcome
    case Returned(o, true) => q.committed && o == q.orderId
    case Returned(o, false) => !q.committed && q.dto.key.Some? && o in orders && orders[o].key == q.dto.key
    case Threw(Conflict) => !q.committed
    case Threw(Internal) => true
    case Threw(_) => q.committed
  }

  ghost predicate RequestOk(q: Request, orders: map<nat, OrderRow>, nextOrderId: nat) {
    && WellFormed(q.dto)
    && (HoldsKey(q) ==> q.orderId !in orders && q.orderId < nextOrderId && KeyFree(orders, q.dto.key))
    && (q.committed ==> q.orderId in orders && orders[q.orderId].key == q.dto.key)
    && (q.phase.Finished? || (q.committed <==> q.phase.Committed? || q.phase.Published?))
    && (q.phase.Raced? ==> q.dto.key.Some? && KeyTaken(orders, q.dto.key.value))
    && (q.phase.Finished? ==> OutcomeOk(q, orders))
  }

  ghost predicate UniqueKeys(orders: map<nat, OrderRow>) {
    forall o1, o2 :: o1 in orders && o2 in orders && orders[o1].key.Some? && orders[o1].key == orders[o2].key ==>
        o1 == o2
  }

  ghost predicate OrderInv(requests: map<nat, Request>, orders: map<nat, OrderRow>, nextOrderId: nat) {
    && (forall o :: o in orders ==> o < nextOrderId)
    && UniqueKeys(orders)
    && (forall r :: r in requests ==> RequestOk(requests[r], orders, nextOrderId))
    && (forall r1, r2 :: r1 in requests && r2 in requests && r1 != r2 && Owns(requests[r1]) && Owns(requests[r2]) ==>
          requests[r1].orderId != requests[r2].orderId)
    && (forall r1, r2 ::
          (r1 in requests && r2 in requests && r1 != r2 && HoldsKey(requests[r1]) && HoldsKey(requests[r2]) ==>
             requests[r1].dto.key.None? || requests[r1].dto.key != requests[r2].dto.key))
  }

  /** Replacing one request, where nothing but the id sequence moves. */
  lemma OrderSet(requests: map<nat, Request>, orders: map<nat, OrderRow>, next: nat, next': nat, r: nat, q: Request)
    requires OrderInv(requests, orders, next) && RequestOk(q, orders, next') && next <= next'
    requires Owns(q) ==> forall x :: x in requests && x != r && Owns(requests[x]) ==> requests[x].orderId != q.orderId
    requires HoldsKey(q) && q.dto.key.Some? ==>
      forall x :: x in requests && x != r && HoldsKey(requests[x]) ==> requests[x].dto.key != q.dto.key
    ensures OrderInv(requests[r := q], orders, next')
  {
    assert forall x :: x in requests ==> RequestOk(requests[x], orders, next) && RequestOk(requests[x], orders, next');
  }

  lemma OrderLocal(s: State, r: nat, step: CreateStep)
    requires OrderInv(s.requests, s.db.orders, s.nextOrderId) && CanCreate(s, r, step) && !step.Commit?
    ensures RequestOk(Local(s, s.requests[r], step), s.db.orders, DoCreate(s, r, step).nextOrderId)
  {
    assert RequestOk(s.requests[r], s.db.orders, s.nextOrderId);
  }

  lemma OrderAfterCreate(s: State, r: nat, step: CreateStep)
    requires OrderInv(s.requests, s.db.orders, s.nextOrderId) && CanCreate(s, r, step) && !step.Commit?
    ensures var s' := DoCreate(s, r, step); OrderInv(s'.requests, s'.db.orders, s'.nextOrderId)
  {
    OrderLocal(s, r, step);
    var q, q' := s.requests[r], Local(s, s.requests[r], step);
    if step.Insert? && q'.phase.Inserted? {
      forall x | x in s.requests && Owns(s.requests[x])
        ensures s.requests[x].orderId != s.nextOrderId
      {
        assert RequestOk(s.requests[x], s.db.orders, s.nextOrderId);
      }
    } else {
      assert Owns(q') ==> Owns(q) && q'.orderId == q.orderId;
      assert HoldsKey(q') ==> HoldsKey(q);
    }
    OrderSet(s.requests, s.db.orders, s.nextOrderId, DoCreate(s, r, step).nextOrderId, r, q');
  }

  /** What another request relies on survives the commit of q. */
  lemma OtherAfterCommit(other: Request, q: Request, orders: map<nat, OrderRow>, next: nat)
    requires RequestOk(other, orders, next) && RequestOk(q, orders, next) && HoldsKey(q)
    requires Owns(other) ==> other.orderId != q.orderId
    requires HoldsKey(other) ==> other.dto.key.None? || other.dto.key != q.dto.key
    ensures RequestOk(other, orders[q.orderId := NewOrder(q.dto)], next)
  {
    var orders' := orders[q.orderId := NewOrder(q.dto)];
    if other.phase.Raced? {
      var o := OrderWithKey(orders, other.dto.key.value);
      assert o in orders' && orders'[o].key == other.dto.key;
    }
  }

  lemma OrderAfterCommit(s: State, r: nat)
    requires OrderInv(s.requests, s.db.orders, s.nextOrderId) && CanCreate(s, r, Commit)
    ensures var s' := DoCreate(s, r, Commit); OrderInv(s'.requests, s'.db.orders, s'.nextOrderId)
  {
    var q := s.requests[r];
    var orders' := s.db.orders[q.orderId := NewOrder(q.dto)];
    var requests' := s.requests[r := Local(s, q, Commit)];
    assert RequestOk(q, s.db.orders, s.nextOrderId);
    forall x | x in requests'
      ensures RequestOk(requests'[x], orders', s.nextOrderId)
    {
      if x != r { OtherAfterCommit(s.requests[x], q, s.db.orders, s.nextOrderId); }
    }
  }

  /** Status changes leave ids and keys alone. */
  lemma OrderFrame(requests: map<nat, Request>, orders: map<nat, OrderRow>, orders': map<nat, OrderRow>,
                   nextOrderId: nat)
    requires OrderInv(requests, orders, nextOrderId) && orders'.Keys == orders.Keys
    requires forall o :: o in orders ==> orders'[o].key == orders[o].key
    ensures OrderInv(requests, orders', nextOrderId)
  {
    forall key: string
      ensures KeyTaken(orders', key) == KeyTaken(orders, key)
    {
      if KeyTaken(orders, key) {
        var o := OrderWithKey(orders, key);
        assert o in orders' && orders'[o].key == Some(key);
      }
      if KeyTaken(orders', key) {
        var o := OrderWithKey(orders', key);
        assert o in orders && orders[o].key == Some(key);
      }
    }
    forall r | r in requests
      ensures RequestOk(requests[r], orders', nextOrderId)
    {
      assert RequestOk(requests[r], orders, nextOrderId);
    }
  }
}
