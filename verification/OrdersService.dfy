/** `create` as the service runs it: its loops, its `committed` flag, its rollback and its
    error mapping, proved against the transaction's effect on the tables. */
module OrdersService {
  import opened Basics
  import opened Tables
  import opened Pipeline

  /** Where the database, the broker or the process fails, if anywhere. */
  datatype Fault = AtLock | AtInsert | AtItems | AtStock(line: nat) | AtCommit | AtPublish | NoFault

  predicate BeforeCommit(fault: Fault, items: seq<Line>) {
    match fault
    case AtStock(line) => line < |items|
    case AtPublish => false
    case NoFault => false
    case _ => true
  }

  /** The validation loop: the first line that does not fit decides. */
  method ValidateLines(copies: map<int, Stock>, items: seq<Line>) returns (failed: Option<nat>)
    ensures failed.None? <==> Available(copies, items)
    ensures failed.Some? ==>
      && failed.value < |items| && !LineAvailable(copies, items[failed.value])
      && Available(copies, items[..failed.value])
  {
    var i := 0;
    while i < |items|
      invariant 0 <= i <= |items|
      invariant forall j :: 0 <= j < i ==> LineAvailable(copies, items[j])
    {
      var line := items[i];
      if line.product !in copies { return Some(i); }
      var available := copies[line.product].stock - copies[line.product].reserved;
      if available < line.amount { return Some(i); }
      i := i + 1;
    }
    return None;
  }

  /** The reservation loop over the loaded entities; a failing save ends it. */
  method ReserveLines(copies: map<int, Stock>, items: seq<Line>, fault: Fault)
    returns (changed: map<int, Stock>, saved: nat)
    requires Products(items) <= copies.Keys
    ensures saved <= |items| && (saved < |items| <==> fault.AtStock? && fault.line < |items|)
    ensures changed.Keys == copies.Keys
    ensures forall p :: p in copies ==> changed[p] == Reserve(copies[p], SumFor(items[..saved], p))
  {
    changed, saved := copies, 0;
    while saved < |items|
      invariant saved <= |items|
      invariant fault.AtStock? ==> saved <= fault.line
      invariant changed.Keys == copies.Keys
      invariant forall p :: p in copies ==> changed[p] == Reserve(copies[p], SumFor(items[..saved], p))
    {
      if fault == AtStock(saved) { return; }
      var line := items[saved];
      assert items[..saved + 1][..saved] == items[..saved];
      assert line.product in Products(items);
      changed := changed[line.product := Reserve(changed[line.product], line.amount)];
      saved := saved + 1;
    }
  }

  datatype StatusResult = NotFound | BadTransition | Updated

  datatype TxResult = TxCommitted(id: nat) | TxConflict | TxRaced | TxError

  /** Orders only appear, and keep their keys, while the request waits for its locks. */
  ghost predicate Later(before: Db, after: Db) {
    && before.orders.Keys <= after.orders.Keys
    && forall o :: o in before.orders ==> after.orders[o].key == before.orders[o].key
  }

  /** The request's transaction reaches its commit on these tables. */
  ghost predicate Commits(db: Db, dto: CreateDto, fault: Fault) {
    Available(db.stocks, dto.items) && KeyFree(db.orders, dto.key) && !BeforeCommit(fault, dto.items)
  }

  /** The ways the transaction can end on these tables. */
  ghost predicate TxEnds(db: Db, nextOrderId: nat, dto: CreateDto, fault: Fault, result: TxResult) {
    match result
    case TxCommitted(id) => Commits(db, dto, fault) && id == nextOrderId
    case TxConflict => !Available(db.stocks, dto.items)
    case TxRaced => Available(db.stocks, dto.items) && !KeyFree(db.orders, dto.key)
    case TxError => BeforeCommit(fault, dto.items)
  }

  ghost predicate Hit(db: Db, dto: CreateDto) {
    dto.key.Some? && KeyTaken(db.orders, dto.key.value)
  }

  /** How `create` answers and what it leaves, looking the key up in before and holding its
      locks on atLock. */
  ghost predicate CreateEnds(before: Db, atLock: Db, id: nat, dto: CreateDto, fault: Fault, payment: Payment,
                             outcome: Outcome, committed: bool, after: Db) {
    && (committed <==> !Hit(before, dto) && Commits(atLock, dto, fault))
    && after == (if Hit(before, dto) then before else if committed then ApplyCreate(atLock, id, dto) else atLock)
    && if committed then
         outcome == if fault == AtPublish then Threw(Internal) else PaymentOutcome(id, payment)
       else
         match outcome
         case Returned(o, created) =>
           && !created && dto.key.Some? && o in after.orders && after.orders[o].key == dto.key
           && (Hit(before, dto) || Available(atLock.stocks, dto.items))
         case Threw(Conflict) => !Hit(before, dto) && !Available(atLock.stocks, dto.items)
         case Threw(failure) => !Hit(before, dto) && failure == Internal && BeforeCommit(fault, dto.items)
  }

  lemma CreateMeans(before: Db, atLock: Db, id: nat, dto: CreateDto, fault: Fault, payment: Payment)
    ensures (!Hit(before, dto) && Commits(atLock, dto, fault)) <==>
      && (forall i :: 0 <= i < |dto.items| ==>
            && dto.items[i].product in atLock.stocks
            && dto.items[i].amount <= atLock.stocks[dto.items[i].product].stock
                                      - atLock.stocks[dto.items[i].product].reserved)
      && (dto.key.Some? ==> forall o :: o in before.orders ==> before.orders[o].key != dto.key)
      && (dto.key.Some? ==> forall o :: o in atLock.orders ==> atLock.orders[o].key != dto.key)
      && (fault == AtPublish || fault == NoFault || (fault.AtStock? && fault.line >= |dto.items|))
    ensures PaymentOutcome(id, payment) == Returned(id, true) <==> payment == Authorized
    ensures PaymentOutcome(id, payment) == Threw(Timeout) <==> payment == DeadlineExceeded
    ensures PaymentOutcome(id, payment) == Threw(PaymentDown) <==> payment == Unavailable
    ensures PaymentOutcome(id, payment) == Threw(Internal) <==> payment == OtherError
  {
    assert forall i :: 0 <= i < |dto.items| ==>
      (LineAvailable(atLock.stocks, dto.items[i]) <==>
        && dto.items[i].product in atLock.stocks
        && dto.items[i].amount <= atLock.stocks[dto.items[i].product].stock
                                  - atLock.stocks[dto.items[i].product].reserved);
  }

  class OrdersService {
    var db: Db
    var nextOrderId: nat
    var queue: seq<Msg>      // orders.process

    constructor (db: Db, nextOrderId: nat)
      ensures this.db == db && this.nextOrderId == nextOrderId && queue == []
    {
      this.db, this.nextOrderId, queue := db, nextOrderId, [];
    }

    method FindByKey(key: string) returns (order: Option<nat>)
      ensures order.Some? <==> exists o :: o in db.orders && db.orders[o].key == Some(key)
      ensures order.Some? ==> order.value in db.orders && db.orders[order.value].key == Some(key)
    {
      if KeyTaken(db.orders, key) {
        var o :| o in db.orders && db.orders[o].key == Some(key);
        return Some(o);
      }
      return None;
    }

    /** The queryRunner transaction, from the row locks to the commit or the rollback. */
    method Transact(dto: CreateDto, fault: Fault) returns (result: TxResult)
      requires forall o :: o in db.orders ==> o < nextOrderId
      modifies this
      ensures TxEnds(old(db), old(nextOrderId), dto, fault, result)
      ensures result.TxCommitted? ==> db == ApplyCreate(old(db), result.id, dto)
      ensures !result.TxCommitted? ==> db == old(db)
      ensures queue == old(queue) && forall o :: o in db.orders ==> o < nextOrderId
    {
      if fault == AtLock { return TxError; }
      var copies := map p | p in Products(dto.items) && p in db.stocks :: db.stocks[p];
      var failed := ValidateLines(copies, dto.items);
      AvailableLocked(db.stocks, copies, dto.items);
      if failed.Some? { return TxConflict; }

      if fault == AtInsert { return TxError; }
      var id := nextOrderId;
      nextOrderId := nextOrderId + 1;
      if !KeyFree(db.orders, dto.key) { return TxRaced; }
      var orders := db.orders[id := NewOrder(dto)];
      if fault == AtItems { return TxError; }
      var items := db.items[id := StoredItems(dto.items)];
      var changed, saved := ReserveLines(copies, dto.items, fault);
      if saved < |dto.items| { return TxError; }
      assert dto.items[..saved] == dto.items;
      if fault == AtCommit { return TxError; }
      StagedIsApplied(db.stocks, copies, changed, dto.items);
      db := db.(stocks := db.stocks + changed, orders := orders, items := items);
      return TxCommitted(id);
    }

    /** atLock: the tables once the stock rows are locked; other requests may have
        committed since the lookup. */
    method Create(dto: CreateDto, atLock: Db, fault: Fault, m: MessageId, payment: Payment)
      returns (outcome: Outcome, committed: bool)
      requires WellFormed(dto) && Later(db, atLock)
      requires forall o :: o in atLock.orders ==> o < nextOrderId
      modifies this
      ensures CreateEnds(old(db), atLock, old(nextOrderId), dto, fault, payment, outcome, committed, db)
      ensures queue == if committed && fault != AtPublish then old(queue) + [Msg(m, old(nextOrderId), 1, false)]
          else old(queue)
      // what the payment's answer becomes
      ensures committed && fault != AtPublish ==>
        && (outcome == Returned(old(nextOrderId), true) <==> payment == Authorized)
        && (outcome == Threw(Timeout) <==> payment == DeadlineExceeded)
        && (outcome == Threw(PaymentDown) <==> payment == Unavailable)
        && (outcome == Threw(Internal) <==> payment == OtherError)
      // when it commits
      ensures committed <==>
        && (forall i :: 0 <= i < |dto.items| ==>
              && dto.items[i].product in atLock.stocks
              && dto.items[i].amount <= atLock.stocks[dto.items[i].product].stock
                                        - atLock.stocks[dto.items[i].product].reserved)
        && (dto.key.Some? ==> forall o :: o in old(db).orders ==> old(db).orders[o].key != dto.key)
        && (dto.key.Some? ==> forall o :: o in atLock.orders ==> atLock.orders[o].key != dto.key)
        && (fault == AtPublish || fault == NoFault || (fault.AtStock? && fault.line >= |dto.items|))
      // what it writes
      ensures committed ==>
        var id := old(nextOrderId);
        && db.orders == atLock.orders[id := OrderRow(dto.userId, dto.addressId, dto.key, Pending, None)]
        && db.items == atLock.items[id := StoredItems(dto.items)]
        && db.stocks.Keys == atLock.stocks.Keys
        && (forall p :: p in db.stocks ==>
              && db.stocks[p].stock == atLock.stocks[p].stock
              && db.stocks[p].reserved == atLock.stocks[p].reserved + SumFor(dto.items, p))
        && db.processed == atLock.processed && db.outbox == atLock.outbox
    {
      CreateMeans(db, atLock, nextOrderId, dto, fault, payment);
      committed := false;
      if dto.key.Some? {
        var existing := FindByKey(dto.key.value);
        if existing.Some? { return Returned(existing.value, false), committed; }
      }
      db := atLock;
      var result := Transact(dto, fault);
      match result
      case TxCommitted(id) =>
        committed := true;
        if fault == AtPublish { return Threw(Internal), committed; }
        queue := queue + [Msg(m, id, 1, false)];
        return PaymentOutcome(id, payment), committed;
      case TxConflict => return Threw(Conflict), committed;
      case TxError => return Threw(Internal), committed;
      case TxRaced =>
        // the unique index refused the row: look up the order that won
        var winner := FindByKey(dto.key.value);
        return Returned(winner.value, false), committed;
    }

    /** atLoad: the tables when the save loads the row to compare it with the entity; atWrite:
        the tables when it writes the columns that differ. */
    method UpdateStatus(id: nat, to: Status, atLoad: Db, atWrite: Db) returns (result: StatusResult)
      requires db.orders.Keys <= atLoad.orders.Keys && db.orders.Keys <= atWrite.orders.Keys
      modifies this`db
      ensures result == NotFound <==> id !in old(db).orders
      ensures result == BadTransition <==> id in old(db).orders && !Allowed(old(db).orders[id].status, to)
      ensures result == Updated <==>
        && id in old(db).orders
        && var from := old(db).orders[id].status;
        || (from == Pending && (to == Processing || to == Canceled))
        || (from == Processing && (to == Complete || to == Canceled))
      ensures result != Updated ==> db == old(db)
      ensures result == Updated ==>
        var read, loaded := old(db).orders[id], atLoad.orders[id];
        && db == atWrite.(orders := atWrite.orders[id := Saved(atWrite.orders[id], Update(id, to, read, Some(loaded)))])
        && db.orders.Keys == atWrite.orders.Keys
        && (forall o :: o in db.orders && o != id ==> db.orders[o] == atWrite.orders[o])
        && db.orders[id].status == (if to != loaded.status then to else atWrite.orders[id].status)
        && db.orders[id].processedAt
           == (if read.processedAt != loaded.processedAt then read.processedAt else atWrite.orders[id].processedAt)
        && (loaded == atWrite.orders[id] ==>
            db.orders[id].status == to && db.orders[id].processedAt == read.processedAt)
    {
      if id !in db.orders { return NotFound; }
      var read := db.orders[id];
      if !Allowed(read.status, to) { return BadTransition; }
      var order := read.(status := to);
      var loaded := atLoad.orders[id];
      db := atWrite;
      var row := db.orders[id];
      if order.status != loaded.status { row := row.(status := order.status); }
      if order.processedAt != loaded.processedAt { row := row.(processedAt := order.processedAt); }
      db := db.(orders := db.orders[id := row]);
      return Updated;
    }
  }

  /** Validation sees the locked rows only, and that is enough. */
  lemma AvailableLocked(stocks: map<int, Stock>, copies: map<int, Stock>, items: seq<Line>)
    requires copies == map p | p in Products(items) && p in stocks :: stocks[p]
    ensures Available(copies, items) <==> Available(stocks, items)
    ensures Available(copies, items) ==> Products(items) <= copies.Keys
  {
    forall i | 0 <= i < |items|
      ensures LineAvailable(copies, items[i]) <==> LineAvailable(stocks, items[i])
    {
      assert items[i].product in Products(items);
    }
    if Available(copies, items) {
      forall p | p in Products(items)
        ensures p in copies
      {
        var i :| 0 <= i < |items| && items[i].product == p;
        assert LineAvailable(copies, items[i]);
      }
    }
  }

  lemma StagedIsApplied(stocks: map<int, Stock>, copies: map<int, Stock>, changed: map<int, Stock>, items: seq<Line>)
    requires copies == map p | p in Products(items) && p in stocks :: stocks[p]
    requires changed.Keys == copies.Keys
    requires forall p :: p in copies ==> changed[p] == Reserve(copies[p], SumFor(items, p))
    ensures stocks + changed == ReserveAll(stocks, items)
  {
    forall p | p in stocks
      ensures (stocks + changed)[p] == ReserveAll(stocks, items)[p]
    {
      if p !in Products(items) { SumForNone(items, p); }
    }
  }

  /** A request whose key another one has committed by the time it holds its locks, and which
      meets no fault, is answered with that key's order if its lookup found it or its lines
      still fit the stock, and with a conflict otherwise. */
  lemma DuplicateAnswer(before: Db, atLock: Db, id: nat, dto: CreateDto, fault: Fault, payment: Payment,
                        outcome: Outcome, committed: bool, after: Db)
    requires CreateEnds(before, atLock, id, dto, fault, payment, outcome, committed, after)
    requires dto.key.Some? && KeyTaken(atLock.orders, dto.key.value) && !BeforeCommit(fault, dto.items)
    ensures !committed
    ensures outcome.Returned? <==> Hit(before, dto) || Available(atLock.stocks, dto.items)
    ensures outcome == Threw(Conflict) <==> !Hit(before, dto) && !Available(atLock.stocks, dto.items)
    ensures outcome.Returned? ==>
      !outcome.created && outcome.order in after.orders && after.orders[outcome.order].key == dto.key
  {
  }

  /** What the winner leaves of the stock it was accepted on is enough for the same lines once
      more exactly when each line fits what was free less the whole order. */
  lemma DuplicateFits(stocks: map<int, Stock>, items: seq<Line>)
    requires Available(stocks, items)
    ensures Available(ReserveAll(stocks, items), items) <==>
            forall i :: 0 <= i < |items| ==>
              var p := items[i].product;
              SumFor(items, p) + items[i].amount <= stocks[p].stock - stocks[p].reserved
  {
    assert forall i :: 0 <= i < |items| ==> LineAvailable(stocks, items[i]);
    forall i | 0 <= i < |items|
      ensures LineAvailable(ReserveAll(stocks, items), items[i]) <==>
              SumFor(items, items[i].product) + items[i].amount
              <= stocks[items[i].product].stock - stocks[items[i].product].reserved
    {
    }
  }
}
