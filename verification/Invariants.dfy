/** The invariant of the whole machine and its preservation by every label. */
module Invariants {
  import opened Basics
  import opened Tables
  import opened Pipeline
  import opened Transactions
  import opened Relays
  import opened Deliveries
  import opened Updates

  // ---- the log of committed transactions ----

  /** Committed requests and Created entries are in one-to-one correspondence. */
  ghost predicate LogInv(requests: map<nat, Request>, log: seq<Entry>) {
    && (forall r :: r in requests && requests[r].committed ==> Created(r, requests[r].orderId, requests[r].dto) in log)
    && (forall i :: 0 <= i < |log| && log[i].Created? ==>
          && log[i].request in requests && requests[log[i].request].committed
          && requests[log[i].request].orderId == log[i].id && requests[log[i].request].dto == log[i].dto)
    && (forall i, j :: 0 <= i < j < |log| && log[i].Created? && log[j].Created? ==> log[i].request != log[j].request)
  }

  lemma LogFrame(requests: map<nat, Request>, requests': map<nat, Request>, log: seq<Entry>)
    requires LogInv(requests, log) && requests.Keys <= requests'.Keys
    requires forall r :: r in requests' && requests'[r].committed ==> r in requests && requests[r].committed
    requires forall r :: r in requests && requests[r].committed ==>
      requests'[r].committed && requests'[r].orderId == requests[r].orderId && requests'[r].dto == requests[r].dto
    ensures LogInv(requests', log)
  {
  }

  lemma LogOther(requests: map<nat, Request>, log: seq<Entry>, e: Entry)
    requires LogInv(requests, log) && !e.Created?
    ensures LogInv(requests, log + [e])
  {
  }

  lemma LogCreated(requests: map<nat, Request>, log: seq<Entry>, r: nat, q: Request)
    requires LogInv(requests, log) && r in requests && !requests[r].committed && q.committed
    ensures LogInv(requests[r := q], log + [Created(r, q.orderId, q.dto)])
  {
  }

  // ---- the database is the serial execution of the log ----

  /** At its commit the request would be accepted by the database as it is now, and its
      absolute writes are what the transaction run alone would write. */
  lemma CreateCommitIsSerial(s: State, r: nat)
    requires StockInv(s.requests, s.db.stocks) && OrderInv(s.requests, s.db.orders, s.nextOrderId)
    requires CanCreate(s, r, Commit)
    ensures var q := s.requests[r];
            var e := Created(r, q.orderId, q.dto);
            Accepts(s.db, e) && CommitCreate(s.db, q) == Apply(s.db, e)
  {
    var q := s.requests[r];
    assert StockOk(q, s.db.stocks) && RequestOk(q, s.db.orders, s.nextOrderId);
    assert q.dto.items[..|q.dto.items|] == q.dto.items;
    var stocks', serial := s.db.stocks + q.copies, ReserveAll(s.db.stocks, q.dto.items);
    forall p | p in stocks'
      ensures p in serial && stocks'[p] == serial[p]
    {
      if p !in q.copies { SumForNone(q.dto.items, p); }
    }
    assert stocks' == serial;
  }

  // ---- the invariant ----

  ghost predicate TxInv(s: State) {
    && StockInv(s.requests, s.db.stocks)
    && OrderInv(s.requests, s.db.orders, s.nextOrderId)
    && LogInv(s.requests, s.past.log)
  }

  ghost predicate PlacesInv(s: State) {
    && DedupInv(s.copies, s.db.processed)
    && LossInv(s.past.published, s.db.processed, s.copies, s.dead)
    && BoundInv(s.copies, s.past.delivered, |s.past.published|, s.past.redelivered)
    && (!s.past.doubled ==> OnePlace(s.db.processed, s.copies, s.dead))
    && NoneBack(s.copies, s.past.redelivered, s.past.doubled)
  }

  ghost predicate BrokerInv(s: State) {
    && MessageInv(s.requests, s.db.orders.Keys, s.past.published, s.copies, s.dead)
    && RowsMatch(s.db.processed, s.db.outbox, s.past.published, s.past.rowOf)
    && OrdersMatch(s.db.orders, s.db.processed, s.past.published, s.past.erased)
    && PlacesInv(s)
  }

  ghost predicate OutboxInv(s: State) {
    && TickInv(s.ticks, s.db.outbox, s.clock)
    && HandoverInv(s.ticks, s.db.outbox, s.events, s.past.rollbacks)
    && SpacingInv(s.db.outbox, s.past.firstFailure)
  }

  ghost predicate Inv(stocks: map<int, Stock>, s: State) {
    && TxInv(s) && BrokerInv(s) && OutboxInv(s) && StatusInv(EmptyDb(stocks), s)
    && Replay(EmptyDb(stocks), s.past.log) == Some(s.db)
  }

  lemma InitTx(s: State)
    requires s.requests == map[] && s.db.orders == map[] && s.past.log == []
    ensures TxInv(s)
  {
  }

  lemma InitBroker(s: State)
    requires s.requests == map[] && s.copies == map[] && s.dead == [] && s.past.delivered == 0 && !s.past.doubled
    requires s.db.orders == map[] && s.db.outbox == map[] && s.db.processed == {}
    requires s.past.published == map[] && s.past.rowOf == map[] && s.past.erased == {}
    ensures BrokerInv(s)
  {
    assert Potential(s.copies) == 0;
  }

  lemma InitOutbox(s: State)
    requires s.db.outbox == map[] && s.ticks == map[] && s.events == []
    ensures OutboxInv(s)
  {
  }

  lemma InvInit(stocks: map<int, Stock>, clock: Millis)
    ensures Inv(stocks, Init(stocks, clock))
  {
    var s := Init(stocks, clock);
    InitTx(s);
    InitBroker(s);
    InitOutbox(s);
  }

  // ---- create steps ----

  lemma CreateKeepsStock(s: State, r: nat, step: CreateStep)
    requires StockInv(s.requests, s.db.stocks) && CanCreate(s, r, step)
    ensures StockInv(DoCreate(s, r, step).requests, DoCreate(s, r, step).db.stocks)
  {
    if step.Commit? { StockAfterCommit(s, r); } else { StockAfterCreate(s, r, step); }
  }

  lemma CreateKeepsOrders(s: State, r: nat, step: CreateStep)
    requires OrderInv(s.requests, s.db.orders, s.nextOrderId) && CanCreate(s, r, step)
    ensures var s' := DoCreate(s, r, step); OrderInv(s'.requests, s'.db.orders, s'.nextOrderId)
  {
    if step.Commit? { OrderAfterCommit(s, r); } else { OrderAfterCreate(s, r, step); }
  }

  lemma CreateKeepsLog(s: State, r: nat, step: CreateStep)
    requires LogInv(s.requests, s.past.log) && CanCreate(s, r, step)
    requires RequestOk(s.requests[r], s.db.orders, s.nextOrderId)
    ensures LogInv(DoCreate(s, r, step).requests, DoCreate(s, r, step).past.log)
  {
    var q' := Local(s, s.requests[r], step);
    if step.Commit? {
      LogCreated(s.requests, s.past.log, r, q');
    } else {
      CommittedFixed(s, r, step);
      LogFrame(s.requests, s.requests[r := q'], s.past.log);
    }
  }

  lemma CreateKeepsTx(s: State, r: nat, step: CreateStep)
    requires TxInv(s) && CanCreate(s, r, step)
    ensures TxInv(DoCreate(s, r, step))
  {
    CreateKeepsStock(s, r, step);
    CreateKeepsOrders(s, r, step);
    CreateKeepsLog(s, r, step);
  }

  /** Only Commit sets the flag, and a committed request keeps its order. */
  lemma CommittedFixed(s: State, r: nat, step: CreateStep)
    requires CanCreate(s, r, step) && !step.Commit? && RequestOk(s.requests[r], s.db.orders, s.nextOrderId)
    ensures var q, q' := s.requests[r], Local(s, s.requests[r], step);
            q'.committed == q.committed && q'.dto == q.dto && (q.committed ==> q'.orderId == q.orderId)
  {
  }

  lemma CreateKeepsMessages(s: State, r: nat, step: CreateStep)
    requires CanCreate(s, r, step) && !step.Commit? && !step.Publish?
    requires MessageInv(s.requests, s.db.orders.Keys, s.past.published, s.copies, s.dead)
    ensures MessageInv(DoCreate(s, r, step).requests, s.db.orders.Keys, s.past.published, s.copies, s.dead)
  {
    assert !Local(s, s.requests[r], step).phase.Committed?;
  }

  lemma CreateKeepsBroker(s: State, r: nat, step: CreateStep)
    requires BrokerInv(s) && CanCreate(s, r, step) && !step.Commit? && !step.Publish?
    ensures BrokerInv(DoCreate(s, r, step))
  {
    CreateKeepsMessages(s, r, step);
  }

  lemma CommitKeepsMessages(s: State, r: nat)
    requires CanCreate(s, r, Commit) && RequestOk(s.requests[r], s.db.orders, s.nextOrderId)
    requires MessageInv(s.requests, s.db.orders.Keys, s.past.published, s.copies, s.dead)
    ensures var s' := DoCreate(s, r, Commit);
            MessageInv(s'.requests, s'.db.orders.Keys, s.past.published, s.copies, s.dead)
  {
    assert DoCreate(s, r, Commit).db.orders.Keys == s.db.orders.Keys + {s.requests[r].orderId};
  }

  lemma CommitKeepsBroker(s: State, r: nat)
    requires CanCreate(s, r, Commit) && RequestOk(s.requests[r], s.db.orders, s.nextOrderId)
    requires BrokerInv(s)
    ensures BrokerInv(DoCreate(s, r, Commit))
  {
    var q := s.requests[r];
    CommitKeepsMessages(s, r);
    OrdersPending(s.db.orders, q.orderId, NewOrder(q.dto), s.db.processed, s.past.published, s.past.erased);
  }

  /** A new order, with an id no message names. */
  lemma OrdersPending(orders: map<nat, OrderRow>, o: nat, order: OrderRow, processed: set<MessageId>,
                      published: map<MessageId, nat>, erased: set<nat>)
    requires OrdersMatch(orders, processed, published, erased)
    requires order.status != Processed && o !in orders
    ensures OrdersMatch(orders[o := order], processed, published, erased)
  {
    var orders' := orders[o := order];
    forall x | x in orders'
      ensures OrderOk(x, orders'[x], processed, published, erased)
    {
      if x != o { assert OrderOk(x, orders[x], processed, published, erased); }
    }
  }

  lemma PublishKeepsMessages(s: State, r: nat, m: MessageId, c: nat)
    requires OrderInv(s.requests, s.db.orders, s.nextOrderId) && CanCreate(s, r, Publish(m, c))
    requires MessageInv(s.requests, s.db.orders.Keys, s.past.published, s.copies, s.dead)
    ensures var s' := DoCreate(s, r, Publish(m, c));
            MessageInv(s'.requests, s'.db.orders.Keys, s'.past.published, s'.copies, s'.dead)
  {
    var q, q' := s.requests[r], s.requests[r].(phase := Published);
    assert RequestOk(q, s.db.orders, s.nextOrderId);
    forall x | x in s.requests && x != r && s.requests[x].phase.Committed?
      ensures s.requests[x].orderId != q.orderId
    {
      assert RequestOk(s.requests[x], s.db.orders, s.nextOrderId);
    }
    MessagesPublish(s.requests, q', r, s.db.orders.Keys, s.past.published, s.copies, s.dead,
                    Msg(m, q.orderId, 1, false), c);
  }

  lemma MessagesPublish(requests: map<nat, Request>, q: Request, r: nat, orders: set<nat>,
                        published: map<MessageId, nat>,
                        copies: map<nat, Copy>, dead: seq<Msg>, msg: Msg, c: nat)
    requires MessageInv(requests, orders, published, copies, dead)
    requires r in requests && requests[r].phase.Committed? && requests[r].orderId == msg.orderId && !q.phase.Committed?
    requires msg.orderId in orders && msg.id !in published && msg.attempt == 1 && !msg.alwaysFail
    requires forall x :: x in requests && x != r && requests[x].phase.Committed? ==> requests[x].orderId != msg.orderId
    ensures MessageInv(requests[r := q], orders, published[msg.id := msg.orderId], copies[c := Fresh(msg)], dead)
  {
    var published' := published[msg.id := msg.orderId];
    forall m: Msg | MsgOk(m, published)
      ensures MsgOk(m, published')
    {
    }
  }

  lemma PublishKeepsLoss(s: State, r: nat, m: MessageId, c: nat)
    requires LossInv(s.past.published, s.db.processed, s.copies, s.dead) && CanCreate(s, r, Publish(m, c))
    ensures var s' := DoCreate(s, r, Publish(m, c)); LossInv(s'.past.published, s'.db.processed, s'.copies, s'.dead)
  {
    var s' := DoCreate(s, r, Publish(m, c));
    forall m' | m' in s'.past.published
      ensures m' in s'.db.processed || Dead(s'.dead, m') || HasLive(s'.copies, m')
    {
      if m' == m {
        assert c in s'.copies && s'.copies[c].msg.id == m && Live(s'.copies[c]);
      } else if HasLive(s.copies, m') {
        var x :| x in s.copies && s.copies[x].msg.id == m' && Live(s.copies[x]);
        assert x in s'.copies && s'.copies[x] == s.copies[x];
      }
    }
  }

  lemma PublishKeepsOrders(orders: map<nat, OrderRow>, processed: set<MessageId>, published: map<MessageId, nat>,
                           erased: set<nat>, m: MessageId, o: nat)
    requires OrdersMatch(orders, processed, published, erased) && m !in published
    ensures OrdersMatch(orders, processed, published[m := o], erased)
  {
    var published' := published[m := o];
    forall x | x in orders
      ensures OrderOk(x, orders[x], processed, published', erased)
    {
      assert OrderOk(x, orders[x], processed, published, erased);
      if ProcessedFor(x, processed, published) {
        var m' :| m' in published && m' in processed && published[m'] == x;
        assert m' in published' && published'[m'] == x;
      }
    }
  }

  lemma PublishKeepsRows(s: State, r: nat, m: MessageId, c: nat)
    requires RowsMatch(s.db.processed, s.db.outbox, s.past.published, s.past.rowOf) && CanCreate(s, r, Publish(m, c))
    ensures RowsMatch(s.db.processed, s.db.outbox, DoCreate(s, r, Publish(m, c)).past.published, s.past.rowOf)
  {
  }

  lemma PublishKeepsPlaces(s: State, r: nat, m: MessageId, c: nat)
    requires MessageInv(s.requests, s.db.orders.Keys, s.past.published, s.copies, s.dead)
    requires CanCreate(s, r, Publish(m, c)) && m !in s.db.processed
    requires DedupInv(s.copies, s.db.processed)
    ensures DedupInv(DoCreate(s, r, Publish(m, c)).copies, s.db.processed)
    ensures OnePlace(s.db.processed, s.copies, s.dead) ==>
      OnePlace(s.db.processed, DoCreate(s, r, Publish(m, c)).copies, s.dead)
  {
    assert forall x :: x in s.copies ==> MsgOk(s.copies[x].msg, s.past.published);
    assert forall i :: 0 <= i < |s.dead| ==> MsgOk(s.dead[i], s.past.published);
  }

  lemma PublishKeepsPlacesInv(s: State, r: nat, m: MessageId, c: nat)
    requires PlacesInv(s) && CanCreate(s, r, Publish(m, c)) && m !in s.db.processed
    requires MessageInv(s.requests, s.db.orders.Keys, s.past.published, s.copies, s.dead)
    ensures PlacesInv(DoCreate(s, r, Publish(m, c)))
  {
    PublishKeepsLoss(s, r, m, c);
    BoundAfterPublish(s, r, m, c);
    PublishKeepsPlaces(s, r, m, c);
  }

  lemma PublishKeepsBroker(s: State, r: nat, m: MessageId, c: nat)
    requires OrderInv(s.requests, s.db.orders, s.nextOrderId) && BrokerInv(s) && CanCreate(s, r, Publish(m, c))
    ensures BrokerInv(DoCreate(s, r, Publish(m, c)))
  {
    PublishKeepsMessages(s, r, m, c);
    PublishKeepsOrders(s.db.orders, s.db.processed, s.past.published, s.past.erased, m, s.requests[r].orderId);
    PublishKeepsRows(s, r, m, c);
    PublishKeepsPlacesInv(s, r, m, c);
  }

  lemma CreateKeepsStatus(db0: Db, s: State, r: nat, step: CreateStep)
    requires StatusInv(db0, s) && Replay(db0, s.past.log) == Some(s.db)
    requires CanCreate(s, r, step) && RequestOk(s.requests[r], s.db.orders, s.nextOrderId)
    ensures StatusInv(db0, DoCreate(s, r, step))
  {
    if step.Commit? {
      StatusAfterCommit(db0, s, DoCreate(s, r, step), Created(r, s.requests[r].orderId, s.requests[r].dto));
    }
  }

  lemma CreateKeeps(stocks: map<int, Stock>, s: State, r: nat, step: CreateStep)
    requires Inv(stocks, s) && CanCreate(s, r, step)
    ensures Inv(stocks, DoCreate(s, r, step))
  {
    assert RequestOk(s.requests[r], s.db.orders, s.nextOrderId);
    CreateKeepsTx(s, r, step);
    CreateKeepsStatus(EmptyDb(stocks), s, r, step);
    if step.Commit? {
      CommitKeepsBroker(s, r);
      CreateCommitIsSerial(s, r);
      ReplaySnoc(EmptyDb(stocks), s.past.log, s.db, Created(r, s.requests[r].orderId, s.requests[r].dto));
    } else if step.Publish? {
      PublishKeepsBroker(s, r, step.m, step.copy);
    } else {
      CreateKeepsBroker(s, r, step);
    }
  }

  // ---- worker steps ----

  lemma WorkKeepsTx(s: State, c: nat, step: WorkStep)
    requires TxInv(s) && CanWork(s, c, step)
    ensures TxInv(DoWork(s, c, step))
  {
    var s' := DoWork(s, c, step);
    if step.CommitProcessed? {
      OrderFrame(s.requests, s.db.orders, s'.db.orders, s.nextOrderId);
      LogOther(s.requests, s.past.log, s'.past.log[|s.past.log|]);
    }
  }

  lemma WorkKeepsMatches(s: State, c: nat, step: WorkStep)
    requires RowsMatch(s.db.processed, s.db.outbox, s.past.published, s.past.rowOf)
    requires OrdersMatch(s.db.orders, s.db.processed, s.past.published, s.past.erased)
    requires MessageInv(s.requests, s.db.orders.Keys, s.past.published, s.copies, s.dead)
    requires CanWork(s, c, step) && CopyOk(s.copies[c], s.db.processed)
    ensures var s' := DoWork(s, c, step);
            && RowsMatch(s'.db.processed, s'.db.outbox, s'.past.published, s'.past.rowOf)
            && OrdersMatch(s'.db.orders, s'.db.processed, s'.past.published, s'.past.erased)
  {
    assert MsgOk(s.copies[c].msg, s.past.published);
    if step.CommitProcessed? {
      RowsAfterProcessed(s, c, step.row, step.at);
      OrdersAfterProcessed(s, c, step.row, step.at);
    }
  }

  lemma WorkKeepsPlaces(s: State, c: nat, step: WorkStep)
    requires CanWork(s, c, step) && NoneBack(s.copies, s.past.redelivered, s.past.doubled)
    requires !s.past.doubled ==> OnePlace(s.db.processed, s.copies, s.dead)
    ensures var s' := DoWork(s, c, step);
            && (!s'.past.doubled ==> OnePlace(s'.db.processed, s'.copies, s'.dead))
            && NoneBack(s'.copies, s'.past.redelivered, s'.past.doubled)
  {
    if !s.past.doubled && !Doubles(s.copies[c], step) { PlaceAfterWork(s, c, step); }
  }

  lemma WorkKeepsBroker(s: State, c: nat, step: WorkStep)
    requires BrokerInv(s) && CanWork(s, c, step)
    ensures BrokerInv(DoWork(s, c, step))
  {
    assert MsgOk(s.copies[c].msg, s.past.published) && CopyOk(s.copies[c], s.db.processed);
    MessageAfterWork(s, c, step);
    WorkKeepsMatches(s, c, step);
    DedupAfterWork(s, c, step);
    LossAfterWork(s, c, step);
    BoundAfterWork(s, c, step);
    WorkKeepsPlaces(s, c, step);
  }

  lemma WorkKeepsOutbox(s: State, c: nat, step: WorkStep)
    requires OutboxInv(s) && CanWork(s, c, step)
    ensures OutboxInv(DoWork(s, c, step))
  {
    if step.CommitProcessed? {
      var s' := DoWork(s, c, step);
      HandoverNewRow(s, step.row, s'.db.outbox[step.row]);
      TickFrame(s.ticks, s.db.outbox, s'.db.outbox, s.clock, s.clock);
    }
  }

  lemma WorkKeepsSerial(stocks: map<int, Stock>, s: State, c: nat, step: WorkStep)
    requires Replay(EmptyDb(stocks), s.past.log) == Some(s.db) && CanWork(s, c, step)
    requires CopyOk(s.copies[c], s.db.processed)
    ensures var s' := DoWork(s, c, step); Replay(EmptyDb(stocks), s'.past.log) == Some(s'.db)
  {
    if step.CommitProcessed? {
      var msg := s.copies[c].msg;
      ReplaySnoc(EmptyDb(stocks), s.past.log, s.db,
                 ProcessedMessage(msg.id, msg.orderId, step.row, step.at));
    }
  }

  /** The order of an unprocessed message is not PROCESSED yet. */
  lemma NotYetProcessed(s: State, msg: Msg)
    requires OrdersMatch(s.db.orders, s.db.processed, s.past.published, s.past.erased)
    requires MessageInv(s.requests, s.db.orders.Keys, s.past.published, s.copies, s.dead)
    requires MsgOk(msg, s.past.published) && msg.id !in s.db.processed && msg.orderId in s.db.orders
    ensures s.db.orders[msg.orderId].status != Processed
  {
    ProcessedForAfter(s, msg, msg.orderId);
    assert OrderOk(msg.orderId, s.db.orders[msg.orderId], s.db.processed, s.past.published, s.past.erased);
  }

  lemma ProcessedKeepsStatus(db0: Db, s: State, c: nat, row: nat, at: Times)
    requires StatusInv(db0, s) && Replay(db0, s.past.log) == Some(s.db)
    requires CanWork(s, c, CommitProcessed(row, at))
    requires s.db.orders[s.copies[c].msg.orderId].status != Processed
    ensures StatusInv(db0, DoWork(s, c, CommitProcessed(row, at)))
  {
    var msg := s.copies[c].msg;
    var s' := DoWork(s, c, CommitProcessed(row, at));
    StatusAfterCommit(db0, s, s', ProcessedMessage(msg.id, msg.orderId, row, at));
  }

  lemma WorkKeepsStatus(db0: Db, s: State, c: nat, step: WorkStep)
    requires StatusInv(db0, s) && Replay(db0, s.past.log) == Some(s.db)
    requires CanWork(s, c, step)
    requires step.CommitProcessed? ==> s.db.orders[s.copies[c].msg.orderId].status != Processed
    ensures StatusInv(db0, DoWork(s, c, step))
  {
    if step.CommitProcessed? { ProcessedKeepsStatus(db0, s, c, step.row, step.at); }
  }

  lemma WorkKeeps(stocks: map<int, Stock>, s: State, c: nat, step: WorkStep)
    requires Inv(stocks, s) && CanWork(s, c, step)
    ensures Inv(stocks, DoWork(s, c, step))
  {
    assert MsgOk(s.copies[c].msg, s.past.published);
    if step.CommitProcessed? { NotYetProcessed(s, s.copies[c].msg); }
    WorkKeepsStatus(EmptyDb(stocks), s, c, step);
    assert CopyOk(s.copies[c], s.db.processed);
    WorkKeepsTx(s, c, step);
    WorkKeepsBroker(s, c, step);
    WorkKeepsOutbox(s, c, step);
    WorkKeepsSerial(stocks, s, c, step);
  }

  // ---- relay steps ----

  lemma RowsFrame(processed: set<MessageId>, outbox: map<nat, OutboxRow>, outbox': map<nat, OutboxRow>,
                  published: map<MessageId, nat>, rowOf: map<MessageId, nat>)
    requires RowsMatch(processed, outbox, published, rowOf) && outbox'.Keys == outbox.Keys
    requires forall r :: r in outbox ==> outbox'[r].orderId == outbox[r].orderId
    ensures RowsMatch(processed, outbox', published, rowOf)
  {
  }

  lemma RowsOfTick(tick: Tick, outbox: map<nat, OutboxRow>, clock: Millis)
    requires TickOk(tick, outbox, clock)
    ensures (outbox + tick.rows).Keys == outbox.Keys
    ensures forall r :: r in outbox ==> (outbox + tick.rows)[r].orderId == outbox[r].orderId
  {
  }

  lemma RelayKeepsRows(tick: Tick, processed: set<MessageId>, outbox: map<nat, OutboxRow>, clock: Millis,
                       published: map<MessageId, nat>, rowOf: map<MessageId, nat>)
    requires RowsMatch(processed, outbox, published, rowOf) && TickOk(tick, outbox, clock)
    ensures RowsMatch(processed, outbox + tick.rows, published, rowOf)
  {
    RowsOfTick(tick, outbox, clock);
    RowsFrame(processed, outbox, outbox + tick.rows, published, rowOf);
  }

  lemma RelayKeepsOutbox(s: State, t: nat, step: RelayStep)
    requires OutboxInv(s) && CanRelay(s, t, step)
    ensures OutboxInv(DoRelay(s, t, step))
  {
    TickAfterRelay(s, t, step);
    HandoverAfterRelay(s, t, step);
    if step.CommitTick? { SpacingAfterCommit(s, t); }
  }

  lemma RelayKeepsBroker(s: State, t: nat, step: RelayStep)
    requires BrokerInv(s) && TickInv(s.ticks, s.db.outbox, s.clock) && CanRelay(s, t, step)
    ensures BrokerInv(DoRelay(s, t, step))
  {
    if step.CommitTick? {
      RelayKeepsRows(s.ticks[t], s.db.processed, s.db.outbox, s.clock, s.past.published, s.past.rowOf);
    }
  }

  lemma RelayKeepsTx(s: State, t: nat, step: RelayStep)
    requires TxInv(s) && CanRelay(s, t, step)
    ensures TxInv(DoRelay(s, t, step))
  {
    if step.CommitTick? { LogOther(s.requests, s.past.log, Relayed(s.ticks[t].asOf, s.ticks[t].handled)); }
  }

  lemma RelayKeepsSerial(stocks: map<int, Stock>, s: State, t: nat, step: RelayStep)
    requires Replay(EmptyDb(stocks), s.past.log) == Some(s.db) && CanRelay(s, t, step)
    requires TickInv(s.ticks, s.db.outbox, s.clock)
    ensures var s' := DoRelay(s, t, step); Replay(EmptyDb(stocks), s'.past.log) == Some(s'.db)
  {
    if step.CommitTick? {
      TickCommitIsSerial(s, t);
      ReplaySnoc(EmptyDb(stocks), s.past.log, s.db, Relayed(s.ticks[t].asOf, s.ticks[t].handled));
    }
  }

  lemma RelayKeepsStatus(db0: Db, s: State, t: nat, step: RelayStep)
    requires StatusInv(db0, s) && Replay(db0, s.past.log) == Some(s.db) && CanRelay(s, t, step)
    ensures StatusInv(db0, DoRelay(s, t, step))
  {
    if step.CommitTick? {
      StatusAfterCommit(db0, s, DoRelay(s, t, step), Relayed(s.ticks[t].asOf, s.ticks[t].handled));
    }
  }

  lemma RelayKeeps(stocks: map<int, Stock>, s: State, t: nat, step: RelayStep)
    requires Inv(stocks, s) && CanRelay(s, t, step)
    ensures Inv(stocks, DoRelay(s, t, step))
  {
    RelayKeepsOutbox(s, t, step);
    RelayKeepsBroker(s, t, step);
    RelayKeepsTx(s, t, step);
    RelayKeepsSerial(stocks, s, t, step);
    RelayKeepsStatus(EmptyDb(stocks), s, t, step);
  }

  // ---- status updates ----

  lemma LogAppend(requests: map<nat, Request>, log: seq<Entry>, more: seq<Entry>)
    requires LogInv(requests, log) && |more| <= 1 && forall i :: 0 <= i < |more| ==> !more[i].Created?
    ensures LogInv(requests, log + more)
  {
    if more == [] { assert log + more == log; } else { LogOther(requests, log, more[0]); assert more == [more[0]]; }
  }

  lemma StatusKeepsTx(s: State, u: nat, step: StatusStep)
    requires TxInv(s) && CanStatus(s, u, step)
    ensures TxInv(DoStatus(s, u, step))
  {
    if step.WriteRow? {
      var update := s.updates[u];
      OrderFrame(s.requests, s.db.orders, DoStatus(s, u, step).db.orders, s.nextOrderId);
      LogAppend(s.requests, s.past.log, SaveEntries(s.db.orders[update.order], update));
    }
  }

  /** A save never writes PROCESSED, and is remembered when it takes it back. */
  lemma SaveKeepsOrders(s: State, u: nat)
    requires OrdersMatch(s.db.orders, s.db.processed, s.past.published, s.past.erased)
    requires CanStatus(s, u, WriteRow) && UpdateOk(s.updates[u], s.db.orders)
    ensures var s' := DoStatus(s, u, WriteRow);
            OrdersMatch(s'.db.orders, s.db.processed, s.past.published, s'.past.erased)
  {
    var s' := DoStatus(s, u, WriteRow);
    forall o | o in s'.db.orders
      ensures OrderOk(o, s'.db.orders[o], s.db.processed, s.past.published, s'.past.erased)
    {
      assert OrderOk(o, s.db.orders[o], s.db.processed, s.past.published, s.past.erased);
    }
  }

  lemma StatusKeepsBroker(s: State, u: nat, step: StatusStep)
    requires BrokerInv(s) && UpdatesInv(s.updates, s.db.orders) && CanStatus(s, u, step)
    ensures BrokerInv(DoStatus(s, u, step))
  {
    if step.WriteRow? {
      assert UpdateOk(s.updates[u], s.db.orders);
      SaveKeepsOrders(s, u);
      assert DoStatus(s, u, step).db.orders.Keys == s.db.orders.Keys;
    }
  }

  lemma StatusKeeps(stocks: map<int, Stock>, s: State, u: nat, step: StatusStep)
    requires Inv(stocks, s) && CanStatus(s, u, step)
    ensures Inv(stocks, DoStatus(s, u, step))
  {
    StatusKeepsTx(s, u, step);
    StatusKeepsBroker(s, u, step);
    StatusKeepsStatus(EmptyDb(stocks), s, u, step);
    if step.WriteRow? { SaveIsLogged(EmptyDb(stocks), s, u); }
  }

  // ---- the other labels ----

  lemma ArriveKeepsTx(s: State, r: nat, dto: CreateDto)
    requires TxInv(s) && Enabled(s, Arrive(r, dto))
    ensures TxInv(Step(s, Arrive(r, dto)))
  {
    var q := Request(dto, Looking, map[], 0, false);
    StockSet(s.requests, s.db.stocks, r, q);
    OrderSet(s.requests, s.db.orders, s.nextOrderId, s.nextOrderId, r, q);
    LogFrame(s.requests, s.requests[r := q], s.past.log);
  }

  lemma ArriveKeepsBroker(s: State, r: nat, dto: CreateDto)
    requires BrokerInv(s) && Enabled(s, Arrive(r, dto))
    ensures BrokerInv(Step(s, Arrive(r, dto)))
  {
    var requests' := Step(s, Arrive(r, dto)).requests;
    assert MessageInv(requests', s.db.orders.Keys, s.past.published, s.copies, s.dead);
  }

  lemma ArriveKeepsOutbox(s: State, r: nat, dto: CreateDto)
    requires OutboxInv(s) && Enabled(s, Arrive(r, dto))
    ensures OutboxInv(Step(s, Arrive(r, dto)))
  {
  }

  lemma ArriveKeeps(stocks: map<int, Stock>, s: State, r: nat, dto: CreateDto)
    requires Inv(stocks, s) && Enabled(s, Arrive(r, dto))
    ensures Inv(stocks, Step(s, Arrive(r, dto)))
  {
    ArriveKeepsTx(s, r, dto);
    ArriveKeepsBroker(s, r, dto);
    ArriveKeepsOutbox(s, r, dto);
  }

  lemma StepKeeps(stocks: map<int, Stock>, s: State, l: Label)
    requires Inv(stocks, s) && Enabled(s, l)
    ensures Inv(stocks, Step(s, l))
  {
    match l
    case Arrive(r, dto) => ArriveKeeps(stocks, s, r, dto);
    case Create(r, step) => CreateKeeps(stocks, s, r, step);
    case Work(c, step) => WorkKeeps(stocks, s, c, step);
    case Relay(t, step) => RelayKeeps(stocks, s, t, step);
    case UpdateStatus(u, step) => StatusKeeps(stocks, s, u, step);
    case Pass(time) => TickFrame(s.ticks, s.db.outbox, s.db.outbox, s.clock, time);
  }

  lemma {:induction false} RunKeeps(stocks: map<int, Stock>, s: State, ls: seq<Label>)
    requires Inv(stocks, s) && CanRun(s, ls)
    ensures Inv(stocks, Run(s, ls))
    decreases |ls|
  {
    if ls != [] {
      StepKeeps(stocks, s, ls[0]);
      RunKeeps(stocks, Step(s, ls[0]), ls[1..]);
    }
  }
}
