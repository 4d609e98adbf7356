/** What holds in every reachable state of the pipeline, and along every run. */
module Theorems {
  import opened Basics
  import opened Tables
  import opened Pipeline
  import opened Transactions
  import opened Relays
  import opened Deliveries
  import opened Updates
  import opened Invariants

  /** Some run from a database with these stocks and nothing else leads to s. */
  ghost predicate Reachable(stocks: map<int, Stock>, s: State) {
    exists clock, ls :: CanRun(Init(stocks, clock), ls) && Run(Init(stocks, clock), ls) == s
  }

  lemma ReachableInv(stocks: map<int, Stock>, s: State)
    requires Reachable(stocks, s)
    ensures Inv(stocks, s)
  {
    var clock, ls :| CanRun(Init(stocks, clock), ls) && Run(Init(stocks, clock), ls) == s;
    InvInit(stocks, clock);
    RunKeeps(stocks, Init(stocks, clock), ls);
  }

  lemma ReachableAfter(stocks: map<int, Stock>, s: State, ls: seq<Label>)
    requires Reachable(stocks, s) && CanRun(s, ls)
    ensures Reachable(stocks, Run(s, ls))
  {
    var clock, before :| CanRun(Init(stocks, clock), before) && Run(Init(stocks, clock), before) == s;
    RunAppend(Init(stocks, clock), before, ls);
  }

  lemma ReachableStep(stocks: map<int, Stock>, s: State, l: Label)
    requires Reachable(stocks, s) && Enabled(s, l)
    ensures Reachable(stocks, Step(s, l))
  {
    RunOne(s, l);
    ReachableAfter(stocks, s, [l]);
  }

  // ---- what a kind of step leaves alone ----

  lemma CreateFrame(s: State, r: nat, step: CreateStep)
    requires CanCreate(s, r, step)
    ensures var s' := DoCreate(s, r, step);
            && s'.past.erased == s.past.erased && s'.past.doubled == s.past.doubled
            && s'.db.outbox == s.db.outbox && s'.db.processed == s.db.processed && s'.updates == s.updates
            && s'.dead == s.dead && (!step.Publish? ==> s'.copies == s.copies)
  {
  }

  lemma WorkFrame(s: State, c: nat, step: WorkStep)
    requires CanWork(s, c, step)
    ensures DoWork(s, c, step).updates == s.updates && DoWork(s, c, step).past.erased == s.past.erased
    ensures DoWork(s, c, step).past.doubled <==> s.past.doubled || Doubles(s.copies[c], step)
    ensures forall row :: row in s.db.outbox ==>
              row in DoWork(s, c, step).db.outbox && DoWork(s, c, step).db.outbox[row] == s.db.outbox[row]
  {
  }

  lemma RelayFrame(s: State, t: nat, step: RelayStep)
    requires CanRelay(s, t, step)
    ensures var s' := DoRelay(s, t, step);
            && s'.past.erased == s.past.erased && s'.past.doubled == s.past.doubled
            && s'.db == s.db.(outbox := s'.db.outbox) && s'.updates == s.updates
            && s'.copies == s.copies && s'.dead == s.dead
  {
    match step
    case Begin(_) =>
    case LockDue(_) =>
    case Handle(_, _) =>
    case CommitTick =>
    case Rollback =>
  }

  // ---- serial execution ----

  /** However creates, worker transactions, ticks and status saves interleave, the database
      is what the logged transactions leave when run alone in commit order; only saves over
      a row that no longer allows their transition are logged as what they wrote. */
  lemma CommittedSerially(stocks: map<int, Stock>, s: State)
    requires Reachable(stocks, s)
    ensures Replay(EmptyDb(stocks), s.past.log) == Some(s.db)
  {
    ReachableInv(stocks, s);
  }

  predicate IsSave(l: Label) {
    l.UpdateStatus? && l.status.WriteRow?
  }

  /** The label is no save, or a timely one. */
  predicate TimelyStep(s: State, l: Label)
    requires Enabled(s, l)
  {
    IsSave(l) ==> Timely(s.db.orders[s.updates[l.update].order], s.updates[l.update])
  }

  /** Every save along the run finds its row as it wants it, or ready for the transition. */
  ghost predicate AllTimely(s: State, ls: seq<Label>)
    requires CanRun(s, ls)
    decreases |ls|
  {
    ls == [] || (TimelyStep(s, ls[0]) && AllTimely(Step(s, ls[0]), ls[1..]))
  }

  /** At most one entry joined, and it is no overwriting. */
  lemma CleanGrows(log: seq<Entry>, log': seq<Entry>)
    requires log' == log || (|log'| == |log| + 1 && log'[..|log|] == log && !log'[|log|].StatusOverwritten?)
    ensures Clean(log') <==> Clean(log)
  {
    if log' != log {
      assert log' == log + [log'[|log|]];
      CleanAppend(log, [log'[|log|]]);
    }
  }

  lemma CleanOther(s: State, l: Label)
    requires Enabled(s, l) && !l.UpdateStatus?
    ensures Clean(Step(s, l).past.log) <==> Clean(s.past.log)
  {
    match l
    case Create(r, step) => CleanGrows(s.past.log, DoCreate(s, r, step).past.log);
    case Work(c, step) => CleanGrows(s.past.log, DoWork(s, c, step).past.log);
    case Relay(t, step) => CleanGrows(s.past.log, DoRelay(s, t, step).past.log);
    case _ =>
  }

  lemma CleanStatus(s: State, u: nat, step: StatusStep)
    requires SteadyInv(s) && UpdatesInv(s.updates, s.db.orders) && CanStatus(s, u, step)
    ensures Clean(DoStatus(s, u, step).past.log) <==> Clean(s.past.log) && TimelyStep(s, UpdateStatus(u, step))
  {
    SteadyAfterStatus(s, u, step);
    if step.WriteRow? {
      CleanAppend(s.past.log, SaveEntries(s.db.orders[s.updates[u].order], s.updates[u]));
    }
  }

  lemma CleanStep(s: State, l: Label)
    requires SteadyInv(s) && UpdatesInv(s.updates, s.db.orders) && Enabled(s, l)
    ensures Clean(Step(s, l).past.log) <==> Clean(s.past.log) && TimelyStep(s, l)
  {
    if l.UpdateStatus? { CleanStatus(s, l.update, l.status); } else { CleanOther(s, l); }
  }

  lemma {:induction false} CleanRun(stocks: map<int, Stock>, s: State, ls: seq<Label>)
    requires Inv(stocks, s) && CanRun(s, ls)
    ensures Clean(Run(s, ls).past.log) <==> Clean(s.past.log) && AllTimely(s, ls)
    decreases |ls|
  {
    if ls != [] {
      CleanStep(s, ls[0]);
      StepKeeps(stocks, s, ls[0]);
      CleanRun(stocks, Step(s, ls[0]), ls[1..]);
    }
  }

  /** The database is the serial execution of the committed transactions, every status
      update being the transition it was checked to be, if and only if every save along the
      run was timely. */
  lemma Serialisability(stocks: map<int, Stock>, clock: Millis, ls: seq<Label>)
    requires CanRun(Init(stocks, clock), ls)
    ensures var s := Run(Init(stocks, clock), ls);
            Replay(EmptyDb(stocks), Claimed(s.past.log)) == Some(s.db) <==> AllTimely(Init(stocks, clock), ls)
  {
    var s := Run(Init(stocks, clock), ls);
    InvInit(stocks, clock);
    RunKeeps(stocks, Init(stocks, clock), ls);
    CleanRun(stocks, Init(stocks, clock), ls);
    if Clean(s.past.log) { CleanClaims(s.past.log); }
  }

  /** The rows a logged create wrote are there; only the status fields of its order may
      have moved on. */
  ghost predicate Stands(id: nat, dto: CreateDto, db: Db) {
    && id in db.orders && id in db.items && db.items[id] == StoredItems(dto.items)
    && db.orders[id].userId == dto.userId && db.orders[id].addressId == dto.addressId && db.orders[id].key == dto.key
  }

  ghost predicate CreatesStand(log: seq<Entry>, db: Db) {
    forall i :: 0 <= i < |log| && log[i].Created? ==> Stands(log[i].id, log[i].dto, db)
  }

  ghost predicate LoggedCreate(log: seq<Entry>, o: nat) {
    exists i :: 0 <= i < |log| && log[i].Created? && log[i].id == o
  }

  lemma StandsAfter(db: Db, e: Entry, id: nat, dto: CreateDto)
    requires Accepts(db, e) && Stands(id, dto, db)
    ensures Stands(id, dto, Apply(db, e))
  {
  }

  lemma LoggedAfter(log: seq<Entry>, e: Entry, o: nat)
    requires LoggedCreate(log, o) || (e.Created? && e.id == o)
    ensures LoggedCreate(log + [e], o)
  {
    if LoggedCreate(log, o) {
      var i :| 0 <= i < |log| && log[i].Created? && log[i].id == o;
      assert (log + [e])[i].Created? && (log + [e])[i].id == o;
    } else {
      assert (log + [e])[|log|] == e;
    }
  }

  /** In a serial execution from an empty database the orders are exactly those the log
      creates, and all they wrote still stands. */
  lemma {:induction false} ReplayFacts(stocks: map<int, Stock>, log: seq<Entry>, db: Db)
    requires Replay(EmptyDb(stocks), log) == Some(db)
    ensures CreatesStand(log, db)
    ensures forall o :: o in db.orders ==> LoggedCreate(log, o)
  {
    if log != [] {
      var n := |log| - 1;
      var before, e := Replay(EmptyDb(stocks), log[..n]).value, log[n];
      ReplayFacts(stocks, log[..n], before);
      assert log == log[..n] + [e];
      forall i | 0 <= i < |log| && log[i].Created?
        ensures Stands(log[i].id, log[i].dto, db)
      {
        if i < n {
          assert log[..n][i] == log[i];
          StandsAfter(before, e, log[i].id, log[i].dto);
        }
      }
      forall o | o in db.orders
        ensures LoggedCreate(log, o)
      {
        LoggedAfter(log[..n], e, o);
      }
    }
  }

  /** The log holds exactly one create of request r, this one. */
  ghost predicate LoggedOnce(log: seq<Entry>, r: nat, id: nat, dto: CreateDto) {
    exists i :: 0 <= i < |log| && log[i] == Created(r, id, dto) &&
      forall j :: 0 <= j < |log| && j != i && log[j].Created? ==> log[j].request != r
  }

  ghost predicate NotLogged(log: seq<Entry>, r: nat) {
    forall i :: 0 <= i < |log| && log[i].Created? ==> log[i].request != r
  }

  /** A finished request has either written its order, items and reservations, once, or
      nothing; a payment error always means the first, a conflict or an order found by key
      always the second. */
  lemma AllOrNothing(stocks: map<int, Stock>, s: State, r: nat)
    requires Reachable(stocks, s) && r in s.requests && s.requests[r].phase.Finished?
    ensures var q := s.requests[r];
            if q.committed then LoggedOnce(s.past.log, r, q.orderId, q.dto) && Stands(q.orderId, q.dto, s.db)
            else NotLogged(s.past.log, r)
    ensures match s.requests[r].phase.outcome
            case Returned(o, true) => s.requests[r].committed && o == s.requests[r].orderId
            case Returned(o, false) => !s.requests[r].committed
            case Threw(Conflict) => !s.requests[r].committed
            case Threw(Timeout) => s.requests[r].committed
            case Threw(PaymentDown) => s.requests[r].committed
            case Threw(Internal) => true
  {
    ReachableInv(stocks, s);
    var q := s.requests[r];
    assert RequestOk(q, s.db.orders, s.nextOrderId);
    if q.committed {
      ReplayFacts(stocks, s.past.log, s.db);
      LoggedByRequest(s.requests, s.past.log, r);
    }
  }

  lemma LoggedByRequest(requests: map<nat, Request>, log: seq<Entry>, r: nat)
    requires LogInv(requests, log) && r in requests && requests[r].committed
    ensures LoggedOnce(log, r, requests[r].orderId, requests[r].dto)
    ensures exists i :: 0 <= i < |log| && log[i].Created? && log[i] == Created(r, requests[r].orderId, requests[r].dto)
  {
    var i :| 0 <= i < |log| && log[i] == Created(r, requests[r].orderId, requests[r].dto);
    assert forall j :: 0 <= j < |log| && j != i && log[j].Created? ==> log[j].request != r;
  }

  // ---- idempotency ----

  ghost predicate ReturnedFor(q: Request, k: string) {
    q.dto.key == Some(k) && q.phase.Finished? && q.phase.outcome.Returned?
  }

  /** Among all requests that ever used key k: one order row, one reservation, one order
      returned, one `created`. */
  lemma IdempotencyKey(stocks: map<int, Stock>, s: State, k: string)
    requires Reachable(stocks, s)
    ensures forall o1, o2 | o1 in s.db.orders && o2 in s.db.orders && o1 != o2 ::
              s.db.orders[o1].key != Some(k) || s.db.orders[o2].key != Some(k)
    ensures forall i, j | 0 <= i < j < |s.past.log| && s.past.log[i].Created? && s.past.log[j].Created? ::
              s.past.log[i].dto.key != Some(k) || s.past.log[j].dto.key != Some(k)
    ensures forall r1, r2 | r1 in s.requests && r2 in s.requests
                            && ReturnedFor(s.requests[r1], k) && ReturnedFor(s.requests[r2], k) ::
              && s.requests[r1].phase.outcome.order == s.requests[r2].phase.outcome.order
              && (s.requests[r1].phase.outcome.created && s.requests[r2].phase.outcome.created ==> r1 == r2)
  {
    ReachableInv(stocks, s);
    OneCreatedEntry(s, k);
    forall r | r in s.requests && ReturnedFor(s.requests[r], k)
      ensures var o := s.requests[r].phase.outcome.order; o in s.db.orders && s.db.orders[o].key == Some(k)
      ensures var o := s.requests[r].phase.outcome;
          o.created ==> Owns(s.requests[r]) && s.requests[r].orderId == o.order
    {
      assert RequestOk(s.requests[r], s.db.orders, s.nextOrderId);
    }
  }

  lemma OneCreatedEntry(s: State, k: string)
    requires OrderInv(s.requests, s.db.orders, s.nextOrderId) && LogInv(s.requests, s.past.log)
    ensures forall i, j | 0 <= i < j < |s.past.log| && s.past.log[i].Created? && s.past.log[j].Created? ::
              s.past.log[i].dto.key != Some(k) || s.past.log[j].dto.key != Some(k)
  {
    var log := s.past.log;
    forall i, j | 0 <= i < j < |log| && log[i].Created? && log[j].Created?
      ensures log[i].dto.key != Some(k) || log[j].dto.key != Some(k)
    {
      var q1, q2 := s.requests[log[i].request], s.requests[log[j].request];
      assert RequestOk(q1, s.db.orders, s.nextOrderId) && RequestOk(q2, s.db.orders, s.nextOrderId);
      assert q1.orderId != q2.orderId;
    }
  }

  /** A request rolled back by a duplicate key always finds the winner's order. */
  lemma RacedFindsOrder(stocks: map<int, Stock>, s: State, r: nat)
    requires Reachable(stocks, s) && r in s.requests && s.requests[r].phase.Raced?
    ensures var phase := Local(s, s.requests[r], LookupAgain).phase;
            && phase.Finished? && phase.outcome.Returned? && !phase.outcome.created
            && phase.outcome.order in s.db.orders && s.db.orders[phase.outcome.order].key == s.requests[r].dto.key
  {
    ReachableOrders(stocks, s);
    assert RequestOk(s.requests[r], s.db.orders, s.nextOrderId);
  }

  /** Before that a request is answered with a conflict, whether or not its key is taken, exactly
      when the stock as committed does not fit its lines. */
  lemma ConflictExactly(stocks: map<int, Stock>, s: State, r: nat)
    requires Reachable(stocks, s) && CanCreate(s, r, Validate)
    ensures Local(s, s.requests[r], Validate).phase ==
            if Available(s.db.stocks, s.requests[r].dto.items) then Validated else Finished(Threw(Conflict))
  {
    ReachableStock(stocks, s);
    AvailableLocked(s.requests[r], s.db.stocks);
  }

  lemma ReachableStock(stocks: map<int, Stock>, s: State)
    requires Reachable(stocks, s)
    ensures StockInv(s.requests, s.db.stocks)
  {
    ReachableInv(stocks, s);
  }

  lemma AvailableLocked(q: Request, stocks: map<int, Stock>)
    requires StockOk(q, stocks) && q.phase.Locking? && AllLocked(q, stocks)
    ensures Available(q.copies, q.dto.items) <==> Available(stocks, q.dto.items)
  {
    forall i | 0 <= i < |q.dto.items|
      ensures LineAvailable(q.copies, q.dto.items[i]) <==> LineAvailable(stocks, q.dto.items[i])
    {
      assert q.dto.items[i].product in Products(q.dto.items);
    }
  }

  lemma ReachableOrders(stocks: map<int, Stock>, s: State)
    requires Reachable(stocks, s)
    ensures OrderInv(s.requests, s.db.orders, s.nextOrderId)
  {
    ReachableInv(stocks, s);
  }

  // ---- exactly-once effect ----

  ghost function ProcessedOrders(orders: map<nat, OrderRow>): set<nat> {
    set o | o in orders && orders[o].status == Processed
  }

  /** f is one-to-one from its domain onto t. */
  ghost predicate Bijection<A>(f: map<A, nat>, t: set<nat>) {
    && (forall a :: a in f ==> f[a] in t)
    && (forall b :: b in t ==> exists a :: a in f && f[a] == b)
    && (forall a1, a2 :: a1 in f && a2 in f && f[a1] == f[a2] ==> a1 == a2)
  }

  ghost function OrderOf(s: State): map<MessageId, nat> {
    map m | m in s.db.processed && m in s.past.published :: s.past.published[m]
  }

  ghost function OutboxOrders(outbox: map<nat, OutboxRow>): map<nat, nat> {
    map row | row in outbox :: outbox[row].orderId
  }

  ghost function Image<A>(f: map<A, nat>): set<nat> {
    set a | a in f :: f[a]
  }

  /** Whatever is redelivered and saved, processed message ids and outbox rows correspond
      one-to-one, each with its own order. The PROCESSED orders are these orders without the
      ones a save took back, and so correspond to both exactly when there are none. */
  lemma ExactlyOnce(stocks: map<int, Stock>, s: State)
    requires Reachable(stocks, s)
    ensures OrderOf(s).Keys == s.past.rowOf.Keys == s.db.processed
    ensures Bijection(s.past.rowOf, s.db.outbox.Keys) && |s.db.processed| == |s.db.outbox|
    ensures forall m :: m in s.past.rowOf ==> OutboxOrders(s.db.outbox)[s.past.rowOf[m]] == OrderOf(s)[m]
    ensures Bijection(OrderOf(s), Image(OrderOf(s))) && Bijection(OutboxOrders(s.db.outbox), Image(OrderOf(s)))
    ensures s.past.erased <= Image(OrderOf(s)) && ProcessedOrders(s.db.orders) == Image(OrderOf(s)) - s.past.erased
    ensures Bijection(OrderOf(s), ProcessedOrders(s.db.orders)) <==> s.past.erased == {}
    ensures Bijection(OutboxOrders(s.db.outbox), ProcessedOrders(s.db.orders)) <==> s.past.erased == {}
  {
    ReachableInv(stocks, s);
    MessagesOnto(s);
    RowsOnto(s);
    SameSize(s.past.rowOf, s.db.outbox.Keys);
    OntoImage(OrderOf(s), Image(OrderOf(s)), ProcessedOrders(s.db.orders), s.past.erased);
    OntoImage(OutboxOrders(s.db.outbox), Image(OrderOf(s)), ProcessedOrders(s.db.orders), s.past.erased);
  }

  lemma MessagesOnto(s: State)
    requires OrdersMatch(s.db.orders, s.db.processed, s.past.published, s.past.erased)
    requires MessageInv(s.requests, s.db.orders.Keys, s.past.published, s.copies, s.dead)
    ensures OrderOf(s).Keys == s.db.processed && Bijection(OrderOf(s), Image(OrderOf(s)))
    ensures s.past.erased <= Image(OrderOf(s)) && ProcessedOrders(s.db.orders) == Image(OrderOf(s)) - s.past.erased
  {
    forall o | o in s.db.orders
      ensures o in Image(OrderOf(s)) <==> s.db.orders[o].status == Processed || o in s.past.erased
      ensures !(s.db.orders[o].status == Processed && o in s.past.erased)
    {
      assert OrderOk(o, s.db.orders[o], s.db.processed, s.past.published, s.past.erased);
      if ProcessedFor(o, s.db.processed, s.past.published) {
        var m :| m in s.past.published && m in s.db.processed && s.past.published[m] == o;
        assert m in OrderOf(s) && OrderOf(s)[m] == o;
      }
    }
  }

  lemma RowsOnto(s: State)
    requires RowsMatch(s.db.processed, s.db.outbox, s.past.published, s.past.rowOf)
    requires OrderOf(s).Keys == s.db.processed && Bijection(OrderOf(s), Image(OrderOf(s)))
    ensures Bijection(OutboxOrders(s.db.outbox), Image(OrderOf(s)))
  {
    var f, rowOf := OutboxOrders(s.db.outbox), s.past.rowOf;
    forall row | row in f
      ensures exists m :: m in rowOf && rowOf[m] == row && m in OrderOf(s) && OrderOf(s)[m] == f[row]
    {
      var m :| m in rowOf && rowOf[m] == row;
      assert m in OrderOf(s) && OrderOf(s)[m] == f[row];
    }
    forall o | o in Image(OrderOf(s))
      ensures exists row :: row in f && f[row] == o
    {
      var m :| m in OrderOf(s) && OrderOf(s)[m] == o;
      assert rowOf[m] in f && f[rowOf[m]] == o;
    }
  }

  /** A map onto its image is onto what is left of the image only when nothing was taken. */
  lemma OntoImage<A>(f: map<A, nat>, image: set<nat>, rest: set<nat>, taken: set<nat>)
    requires Bijection(f, image) && taken <= image && rest == image - taken
    ensures Bijection(f, rest) <==> taken == {}
  {
    if o :| o in taken {
      var a :| a in f && f[a] == o;
    }
  }

  /** The label is a save that overwrites PROCESSED. */
  predicate ErasesStep(s: State, l: Label)
    requires Enabled(s, l)
  {
    IsSave(l) &&
    var u := s.updates[l.update];
    s.db.orders[u.order].status == Processed && u.loaded.value.status != u.to
  }

  ghost predicate NoneErases(s: State, ls: seq<Label>)
    requires CanRun(s, ls)
    decreases |ls|
  {
    ls == [] || (!ErasesStep(s, ls[0]) && NoneErases(Step(s, ls[0]), ls[1..]))
  }

  lemma ErasedSave(s: State, u: nat, step: StatusStep)
    requires UpdatesInv(s.updates, s.db.orders) && CanStatus(s, u, step)
    ensures DoStatus(s, u, step).past.erased == {} <==> s.past.erased == {} && !ErasesStep(s, UpdateStatus(u, step))
  {
    if step.WriteRow? { assert UpdateOk(s.updates[u], s.db.orders); }
  }

  lemma ErasedOther(s: State, l: Label)
    requires Enabled(s, l) && !l.UpdateStatus?
    ensures Step(s, l).past.erased == s.past.erased
  {
    match l
    case Create(r, step) => CreateFrame(s, r, step);
    case Work(c, step) => WorkFrame(s, c, step);
    case Relay(t, step) => RelayFrame(s, t, step);
    case _ =>
  }

  lemma ErasedStep(s: State, l: Label)
    requires UpdatesInv(s.updates, s.db.orders) && Enabled(s, l)
    ensures Step(s, l).past.erased == {} <==> s.past.erased == {} && !ErasesStep(s, l)
  {
    if l.UpdateStatus? { ErasedSave(s, l.update, l.status); } else { ErasedOther(s, l); }
  }

  lemma {:induction false} ErasedRun(stocks: map<int, Stock>, s: State, ls: seq<Label>)
    requires Inv(stocks, s) && CanRun(s, ls)
    ensures Run(s, ls).past.erased == {} <==> s.past.erased == {} && NoneErases(s, ls)
    decreases |ls|
  {
    if ls != [] {
      ErasedStep(s, ls[0]);
      StepKeeps(stocks, s, ls[0]);
      ErasedRun(stocks, Step(s, ls[0]), ls[1..]);
    }
  }

  /** Processed message ids, outbox rows and PROCESSED orders correspond one-to-one after a
      run if and only if no save along it overwrote PROCESSED. */
  lemma ExactlyOnceExactly(stocks: map<int, Stock>, clock: Millis, ls: seq<Label>)
    requires CanRun(Init(stocks, clock), ls)
    ensures var s := Run(Init(stocks, clock), ls);
            (Bijection(OrderOf(s), ProcessedOrders(s.db.orders))
             && Bijection(OutboxOrders(s.db.outbox), ProcessedOrders(s.db.orders)))
            <==> NoneErases(Init(stocks, clock), ls)
  {
    InvInit(stocks, clock);
    ErasedRun(stocks, Init(stocks, clock), ls);
    ExactlyOnce(stocks, Run(Init(stocks, clock), ls));
  }

  /** A map that is one-to-one onto t has as many keys as t has elements. */
  lemma {:induction false} SameSize<A>(f: map<A, nat>, t: set<nat>)
    requires Bijection(f, t)
    ensures |f.Keys| == |t|
    decreases |t|
  {
    if t == {} {
      assert f.Keys == {};
    } else {
      var b :| b in t;
      var a :| a in f && f[a] == b;
      var f' := f - {a};
      forall x | x in t - {b}
        ensures exists a' :: a' in f' && f'[a'] == x
      {
        var a' :| a' in f && f[a'] == x;
        assert a' in f' && f'[a'] == x;
      }
      SameSize(f', t - {b});
      assert f.Keys == f'.Keys + {a};
    }
  }

  /** However often a message is delivered, its transaction commits at most once. */
  lemma {:induction false} ProcessedOnce(db0: Db, log: seq<Entry>, db: Db)
    requires Replay(db0, log) == Some(db)
    ensures forall i :: 0 <= i < |log| && log[i].ProcessedMessage? ==> log[i].m in db.processed
    ensures forall i, j :: 0 <= i < j < |log| && log[i].ProcessedMessage? && log[j].ProcessedMessage? ==>
        log[i].m != log[j].m
  {
    if log != [] {
      var n := |log| - 1;
      ProcessedOnce(db0, log[..n], Replay(db0, log[..n]).value);
      assert forall i :: 0 <= i < n ==> log[..n][i] == log[i];
    }
  }

  // ---- deliveries ----

  /** At most three deliveries for every message published and every redelivery. */
  lemma DeliveryBound(stocks: map<int, Stock>, s: State)
    requires Reachable(stocks, s)
    ensures s.past.delivered <= 3 * (|s.past.published| + s.past.redelivered)
    ensures forall c :: c in s.copies ==> 1 <= s.copies[c].msg.attempt <= 3
  {
    ReachableInv(stocks, s);
    assert forall c :: c in s.copies ==> MsgOk(s.copies[c].msg, s.past.published);
    PotentialNonnegative(s.copies);
  }

  /** A published message is still in the queue or with a worker, or processed, or
      dead-lettered; it is in exactly one of these places as long as none was doubled, and
      redelivering one that is not settled doubles none. */
  lemma NoLoss(stocks: map<int, Stock>, s: State, m: MessageId)
    requires Reachable(stocks, s) && m in s.past.published
    ensures m in s.db.processed || Dead(s.dead, m) || HasLive(s.copies, m)
    ensures s.past.redelivered == 0 ==> !s.past.doubled
    ensures !s.past.doubled ==>
      && !(m in s.db.processed && Dead(s.dead, m))
      && !(m in s.db.processed && HasLive(s.copies, m))
      && !(Dead(s.dead, m) && HasLive(s.copies, m))
      && (forall c1, c2 | c1 in s.copies && c2 in s.copies && c1 != c2 && Live(s.copies[c1]) && Live(s.copies[c2]) ::
            s.copies[c1].msg.id != m || s.copies[c2].msg.id != m)
      && (forall i, j | 0 <= i < j < |s.dead| :: s.dead[i].id != m || s.dead[j].id != m)
  {
    ReachableInv(stocks, s);
  }

  /** A delivery put back, with its handler over or running on, is the same message with the
      same attempt; whatever else is in flight stays as it is. */
  lemma PutBackAsIs(s: State, c: nat, step: WorkStep)
    requires CanWork(s, c, step) && (step.Redeliver? || step.Detach?)
    ensures var copies := DoWork(s, c, step).copies; var back := if step.Detach? then step.copy else c;
            && back in copies && copies[back] == Copy(s.copies[c].msg, Queued, true)
            && (step.Detach? ==> c in copies && copies[c] == s.copies[c].(attached := false))
            && (forall x :: x in s.copies && x != c ==> x in copies && copies[x] == s.copies[x])
            && DoWork(s, c, step).db == s.db
  {
  }

  predicate DoublesStep(s: State, l: Label)
    requires Enabled(s, l)
  {
    l.Work? && Doubles(s.copies[l.copy], l.work)
  }

  ghost predicate NoneDoubles(s: State, ls: seq<Label>)
    requires CanRun(s, ls)
    decreases |ls|
  {
    ls == [] || (!DoublesStep(s, ls[0]) && NoneDoubles(Step(s, ls[0]), ls[1..]))
  }

  /** No message is in two places in any state along the run. */
  ghost predicate OnePlaceAlong(s: State, ls: seq<Label>)
    requires CanRun(s, ls)
    decreases |ls|
  {
    OnePlace(s.db.processed, s.copies, s.dead) && (ls == [] || OnePlaceAlong(Step(s, ls[0]), ls[1..]))
  }

  lemma PlaceOther(s: State, l: Label)
    requires Enabled(s, l) && !l.Work? && !(l.Create? && l.create.Publish?)
    ensures var s' := Step(s, l);
            s'.db.processed == s.db.processed && s'.copies == s.copies && s'.dead == s.dead
  {
    match l
    case Create(r, step) => CreateFrame(s, r, step);
    case Relay(t, step) => RelayFrame(s, t, step);
    case _ =>
  }

  lemma PlaceWork(s: State, c: nat, step: WorkStep)
    requires CanWork(s, c, step) && OnePlace(s.db.processed, s.copies, s.dead)
    requires MessageInv(s.requests, s.db.orders.Keys, s.past.published, s.copies, s.dead)
    requires DedupInv(s.copies, s.db.processed) && LossInv(s.past.published, s.db.processed, s.copies, s.dead)
    ensures var s' := DoWork(s, c, step);
            OnePlace(s'.db.processed, s'.copies, s'.dead) <==> !Doubles(s.copies[c], step)
  {
    assert MsgOk(s.copies[c].msg, s.past.published) && CopyOk(s.copies[c], s.db.processed);
    if Doubles(s.copies[c], step) { PlaceDoubled(s, c, step); } else { PlaceAfterWork(s, c, step); }
  }

  lemma PlaceStep(s: State, l: Label)
    requires Enabled(s, l) && OnePlace(s.db.processed, s.copies, s.dead)
    requires MessageInv(s.requests, s.db.orders.Keys, s.past.published, s.copies, s.dead)
    requires DedupInv(s.copies, s.db.processed) && LossInv(s.past.published, s.db.processed, s.copies, s.dead)
    requires s.db.processed <= s.past.published.Keys
    ensures var s' := Step(s, l); OnePlace(s'.db.processed, s'.copies, s'.dead) <==> !DoublesStep(s, l)
  {
    if l.Work? {
      PlaceWork(s, l.copy, l.work);
    } else if l.Create? && l.create.Publish? {
      PublishKeepsPlaces(s, l.request, l.create.m, l.create.copy);
    } else {
      PlaceOther(s, l);
    }
  }

  lemma PlaceStepReachable(stocks: map<int, Stock>, s: State, l: Label)
    requires Inv(stocks, s) && Enabled(s, l) && OnePlace(s.db.processed, s.copies, s.dead)
    ensures var s' := Step(s, l); OnePlace(s'.db.processed, s'.copies, s'.dead) <==> !DoublesStep(s, l)
  {
    PlaceStep(s, l);
  }

  lemma {:induction false} PlaceRun(stocks: map<int, Stock>, s: State, ls: seq<Label>)
    requires Inv(stocks, s) && CanRun(s, ls) && OnePlace(s.db.processed, s.copies, s.dead)
    ensures OnePlaceAlong(s, ls) <==> NoneDoubles(s, ls)
    decreases |ls|
  {
    if ls != [] {
      PlaceStepReachable(stocks, s, ls[0]);
      StepKeeps(stocks, s, ls[0]);
      if !DoublesStep(s, ls[0]) { PlaceRun(stocks, Step(s, ls[0]), ls[1..]); }
    }
  }

  lemma DoubledStep(s: State, l: Label)
    requires Enabled(s, l)
    ensures Step(s, l).past.doubled <==> s.past.doubled || DoublesStep(s, l)
  {
    match l
    case Create(r, step) => CreateFrame(s, r, step);
    case Work(c, step) => WorkFrame(s, c, step);
    case Relay(t, step) => RelayFrame(s, t, step);
    case _ =>
  }

  lemma {:induction false} DoubledRun(s: State, ls: seq<Label>)
    requires CanRun(s, ls)
    ensures Run(s, ls).past.doubled <==> s.past.doubled || !NoneDoubles(s, ls)
    decreases |ls|
  {
    if ls != [] {
      DoubledStep(s, ls[0]);
      DoubledRun(Step(s, ls[0]), ls[1..]);
    }
  }

  /** Along a run every message stays in at most one place, and so by `NoLoss` in exactly one,
      if and only if no settled delivery is put back and no handler commits whose delivery
      was. */
  lemma OnePlaceExactly(stocks: map<int, Stock>, clock: Millis, ls: seq<Label>)
    requires CanRun(Init(stocks, clock), ls)
    ensures OnePlaceAlong(Init(stocks, clock), ls) <==> NoneDoubles(Init(stocks, clock), ls)
    ensures Run(Init(stocks, clock), ls).past.doubled <==> !NoneDoubles(Init(stocks, clock), ls)
  {
    InvInit(stocks, clock);
    DoubledRun(Init(stocks, clock), ls);
    PlaceRun(stocks, Init(stocks, clock), ls);
  }

  // ---- causality ----

  /** Every message anywhere in the broker names a committed order, so the worker never
      fails to find it. */
  lemma MessagesNameOrders(stocks: map<int, Stock>, s: State)
    requires Reachable(stocks, s)
    ensures forall c :: c in s.copies ==> s.copies[c].msg.orderId in s.db.orders
    ensures forall i :: 0 <= i < |s.dead| ==> s.dead[i].orderId in s.db.orders && s.dead[i].attempt == 3
  {
    ReachableInv(stocks, s);
    assert forall c :: c in s.copies ==> MsgOk(s.copies[c].msg, s.past.published);
  }

  ghost predicate Caused(log: seq<Entry>, row: nat, orderId: nat) {
    exists i, j :: 0 <= i < j < |log| && log[i].Created? && log[i].id == orderId
                && log[j].ProcessedMessage? && log[j].row == row && log[j].orderId == orderId
  }

  lemma CausedBefore(log: seq<Entry>, e: Entry, row: nat, orderId: nat)
    requires Caused(log, row, orderId)
    ensures Caused(log + [e], row, orderId)
  {
    var i, j :| 0 <= i < j < |log| && log[i].Created? && log[i].id == orderId
             && log[j].ProcessedMessage? && log[j].row == row && log[j].orderId == orderId;
    assert (log + [e])[i] == log[i] && (log + [e])[j] == log[j];
  }

  lemma CausedNow(log: seq<Entry>, e: Entry)
    requires e.ProcessedMessage? && LoggedCreate(log, e.orderId)
    ensures Caused(log + [e], e.row, e.orderId)
  {
    var i :| 0 <= i < |log| && log[i].Created? && log[i].id == e.orderId;
    assert (log + [e])[i] == log[i] && (log + [e])[|log|] == e;
  }

  lemma RowsFrom(db: Db, e: Entry, row: nat)
    requires Accepts(db, e) && row in Apply(db, e).outbox
    ensures var orderId := Apply(db, e).outbox[row].orderId;
            if row in db.outbox then orderId == db.outbox[row].orderId
            else e.ProcessedMessage? && e.row == row && e.orderId == orderId && orderId in db.orders
  {
  }

  lemma {:induction false} ReplayCauses(stocks: map<int, Stock>, log: seq<Entry>, db: Db)
    requires Replay(EmptyDb(stocks), log) == Some(db)
    ensures forall row :: row in db.outbox ==> Caused(log, row, db.outbox[row].orderId)
  {
    if log != [] {
      var n := |log| - 1;
      var before, e := Replay(EmptyDb(stocks), log[..n]).value, log[n];
      ReplayCauses(stocks, log[..n], before);
      ReplayFacts(stocks, log[..n], before);
      assert log == log[..n] + [e];
      forall row | row in db.outbox
        ensures Caused(log, row, db.outbox[row].orderId)
      {
        RowsFrom(before, e, row);
        if row in before.outbox {
          CausedBefore(log[..n], e, row, before.outbox[row].orderId);
        } else {
          CausedNow(log[..n], e);
        }
      }
    }
  }

  /** Every event handed to domain.events comes from an outbox row written by a committed
      worker transaction, after the commit that created its order, which is still PROCESSED
      unless a save took that back. */
  lemma Causality(stocks: map<int, Stock>, s: State, i: nat)
    requires Reachable(stocks, s) && i < |s.events|
    ensures var e := s.events[i];
            && e.row in s.db.outbox && s.db.outbox[e.row].orderId == e.orderId
            && s.db.outbox[e.row].createdAt == e.createdAt
            && e.orderId in s.db.orders
            && (s.db.orders[e.orderId].status == Processed <==> e.orderId !in s.past.erased)
            && Caused(s.past.log, e.row, e.orderId)
  {
    ReachableInv(stocks, s);
    ReplayCauses(stocks, s.past.log, s.db);
    ExactlyOnce(stocks, s);
    var e := s.events[i];
    assert e.row in OutboxOrders(s.db.outbox) && OutboxOrders(s.db.outbox)[e.row] == e.orderId;
  }

  // ---- relays ----

  /** No row is held by two ticks; a row is handed over at least once if SENT and at most
      once more than ticks holding it were rolled back. */
  lemma RelayHandovers(stocks: map<int, Stock>, s: State)
    requires Reachable(stocks, s)
    ensures forall t1, t2, r :: t1 in s.ticks && t2 in s.ticks && r in s.ticks[t1].rows && r in s.ticks[t2].rows ==>
        t1 == t2
    ensures forall r :: r in s.db.outbox ==>
              Handovers(s.events, r) <= 1 + Rollbacks(s.past.rollbacks, r)
    ensures forall r :: r in s.db.outbox && s.db.outbox[r].status == OutSent ==> 1 <= Handovers(s.events, r)
    ensures forall r :: r in s.db.outbox && s.db.outbox[r].status == OutSent && Rollbacks(s.past.rollbacks, r) == 0 ==>
              Handovers(s.events, r) == 1
    ensures forall r :: r in s.db.outbox && s.db.outbox[r].status != OutSent && !HandedOpen(s.ticks, r) ==>
              Handovers(s.events, r) <= Rollbacks(s.past.rollbacks, r)
  {
    ReachableInv(stocks, s);
    forall r | r in s.db.outbox
      ensures HandoverOk(s.ticks, s.db.outbox[r], r, Handovers(s.events, r), Rollbacks(s.past.rollbacks, r))
    {
    }
  }

  lemma SentRelayStep(s: State, t: nat, step: RelayStep, row: nat)
    requires TickInv(s.ticks, s.db.outbox, s.clock) && CanRelay(s, t, step)
    requires row in s.db.outbox && s.db.outbox[row].status == OutSent
    ensures row in DoRelay(s, t, step).db.outbox && DoRelay(s, t, step).db.outbox[row] == s.db.outbox[row]
  {
    if step.CommitTick? { assert TickOk(s.ticks[t], s.db.outbox, s.clock); }
  }

  lemma SentOther(s: State, l: Label, row: nat)
    requires Enabled(s, l) && !l.Relay? && row in s.db.outbox
    ensures row in Step(s, l).db.outbox && Step(s, l).db.outbox[row] == s.db.outbox[row]
  {
    match l
    case Create(r, step) => CreateFrame(s, r, step);
    case Work(c, step) => WorkFrame(s, c, step);
    case _ =>
  }

  lemma SentStep(s: State, l: Label, row: nat)
    requires TickInv(s.ticks, s.db.outbox, s.clock) && Enabled(s, l)
    requires row in s.db.outbox && s.db.outbox[row].status == OutSent
    ensures row in Step(s, l).db.outbox && Step(s, l).db.outbox[row] == s.db.outbox[row]
  {
    match l
    case Relay(t, step) => SentRelayStep(s, t, step, row);
    case _ => SentOther(s, l, row);
  }

  lemma SentStays(stocks: map<int, Stock>, s: State, l: Label, row: nat)
    requires Reachable(stocks, s) && Enabled(s, l) && row in s.db.outbox && s.db.outbox[row].status == OutSent
    ensures row in Step(s, l).db.outbox && Step(s, l).db.outbox[row] == s.db.outbox[row]
  {
    ReachableInv(stocks, s);
    SentStep(s, l, row);
  }

  /** SENT is absorbing. */
  lemma {:induction false} SentForever(stocks: map<int, Stock>, s: State, ls: seq<Label>, row: nat)
    requires Reachable(stocks, s) && CanRun(s, ls) && row in s.db.outbox && s.db.outbox[row].status == OutSent
    ensures row in Run(s, ls).db.outbox && Run(s, ls).db.outbox[row] == s.db.outbox[row]
    decreases |ls|
  {
    if ls != [] {
      SentStays(stocks, s, ls[0], row);
      ReachableStep(stocks, s, ls[0]);
      SentForever(stocks, Step(s, ls[0]), ls[1..], row);
    }
  }

  /** The tick that next picks up a row after n committed failures started no earlier than
      the first failure plus the n delays. */
  lemma RetrySpacing(stocks: map<int, Stock>, s: State, t: nat, row: nat)
    requires Reachable(stocks, s) && Enabled(s, Relay(t, LockDue(row))) && s.db.outbox[row].attempts >= 1
    ensures row in s.past.firstFailure
            && s.ticks[t].asOf >= s.past.firstFailure[row] + TotalBackoff(s.db.outbox[row].attempts)
  {
    ReachableInv(stocks, s);
    assert SpacingOk(s.db.outbox[row], row, s.past.firstFailure);
  }

  /** Tick t has room, has handled nothing yet, and no tick holds the row. */
  predicate MayLock(s: State, t: nat, row: nat) {
    && t in s.ticks && |s.ticks[t].rows| < 50 && s.ticks[t].handled == map[]
    && row in s.db.outbox && forall x :: x in s.ticks ==> row !in s.ticks[x].rows
  }

  /** The query takes exactly the PENDING and FAILED rows without a next attempt or with one
      that has come. */
  lemma DueExactly(s: State, t: nat, row: nat)
    requires MayLock(s, t, row)
    ensures var m := s.db.outbox[row];
            Enabled(s, Relay(t, LockDue(row))) <==>
              && (m.status == OutPending || m.status == OutFailed)
              && (m.nextAttemptAt.None? || m.nextAttemptAt.value <= s.ticks[t].asOf)
  {
  }

  /** A row as the worker wrote it is taken by exactly the ticks from its time on. */
  lemma PickedFrom(s: State, c: nat, row: nat, at: Times, later: State, t: nat)
    requires CanWork(s, c, CommitProcessed(row, at)) && MayLock(later, t, row)
    requires later.db.outbox[row] == DoWork(s, c, CommitProcessed(row, at)).db.outbox[row]
    ensures Enabled(later, Relay(t, LockDue(row))) <==> at.due <= later.ticks[t].asOf
  {
    DueExactly(later, t, row);
  }

  /** A row as a tick left it that failed on it at f, for the n-th time, is taken again by
      exactly the ticks from f plus the n-th delay on. */
  lemma RetriedFrom(stocks: map<int, Stock>, s: State, t0: nat, row: nat, f: Millis, later: State, t: nat)
    requires Reachable(stocks, s) && CanRelay(s, t0, CommitTick) && MayLock(later, t, row)
    requires row in s.ticks[t0].handled && s.ticks[t0].handled[row] == FailedAt(f) && row in s.db.outbox
    requires later.db.outbox[row] == DoRelay(s, t0, CommitTick).db.outbox[row]
    ensures var delay := match s.db.outbox[row].attempts + 1
                         case 1 => 1000
                         case 2 => 2000
                         case 3 => 4000
                         case 4 => 8000
                         case 5 => 16000
                         case 6 => 32000
                         case _ => 60000;
            Enabled(later, Relay(t, LockDue(row))) <==> f + delay <= later.ticks[t].asOf
  {
    ReachableTicks(stocks, s);
    assert TickOk(s.ticks[t0], s.db.outbox, s.clock);
    BackoffTable(s.db.outbox[row].attempts + 1);
    DueExactly(later, t, row);
  }

  lemma ReachableTicks(stocks: map<int, Stock>, s: State)
    requires Reachable(stocks, s)
    ensures TickInv(s.ticks, s.db.outbox, s.clock)
  {
    ReachableInv(stocks, s);
  }

  lemma {:induction false} TotalBackoffClosed(n: nat)
    ensures n <= 6 ==> TotalBackoff(n) == 1000 * (Pow2(n) - 1)
    ensures n > 6 ==> TotalBackoff(n) == 63000 + 60000 * (n - 6)
  {
    assert Pow2(1) == 2 && Pow2(2) == 4 && Pow2(3) == 8 && Pow2(4) == 16;
    assert Pow2(5) == 32 && Pow2(6) == 64;
    if n > 0 {
      TotalBackoffClosed(n - 1);
      if n > 6 { Pow2Monotone(6, n - 1); }
    }
  }

  // ---- order status ----

  predicate Climbs(before: OrderRow, after: OrderRow) {
    after.status == before.status || Rank(before.status) < Rank(after.status)
  }

  lemma StatusWorkStep(s: State, c: nat, step: WorkStep, o: nat)
    requires OrdersMatch(s.db.orders, s.db.processed, s.past.published, s.past.erased)
    requires MessageInv(s.requests, s.db.orders.Keys, s.past.published, s.copies, s.dead)
    requires CanWork(s, c, step) && CopyOk(s.copies[c], s.db.processed) && o in s.db.orders
    ensures o in DoWork(s, c, step).db.orders && Climbs(s.db.orders[o], DoWork(s, c, step).db.orders[o])
  {
    var msg := s.copies[c].msg;
    assert MsgOk(msg, s.past.published);
    if step.CommitProcessed? {
      ProcessedForAfter(s, msg, o);
      assert OrderOk(o, s.db.orders[o], s.db.processed, s.past.published, s.past.erased);
    }
  }

  lemma StatusCreateStep(s: State, r: nat, step: CreateStep, o: nat)
    requires OrderInv(s.requests, s.db.orders, s.nextOrderId) && CanCreate(s, r, step) && o in s.db.orders
    ensures o in DoCreate(s, r, step).db.orders && DoCreate(s, r, step).db.orders[o] == s.db.orders[o]
  {
    assert RequestOk(s.requests[r], s.db.orders, s.nextOrderId);
  }

  predicate SavesTo(s: State, l: Label, o: nat)
    requires Enabled(s, l)
  {
    IsSave(l) && s.updates[l.update].order == o
  }

  lemma StatusSaveStep(s: State, u: nat, step: StatusStep, o: nat)
    requires UpdatesInv(s.updates, s.db.orders) && CanStatus(s, u, step) && o in s.db.orders
    ensures var l := UpdateStatus(u, step);
            && o in Step(s, l).db.orders
            && (Climbs(s.db.orders[o], Step(s, l).db.orders[o]) <==> SavesTo(s, l, o) ==> TimelyStep(s, l))
  {
    if step.WriteRow? {
      assert UpdateOk(s.updates[u], s.db.orders);
      ClimbsExactly(s.db.orders, s.updates[u]);
    }
  }

  lemma StatusOtherStep(s: State, l: Label)
    requires Enabled(s, l) && (l.Arrive? || l.Relay? || l.Pass?)
    ensures Step(s, l).db.orders == s.db.orders
  {
  }

  lemma StatusStep(s: State, l: Label, o: nat)
    requires OrderInv(s.requests, s.db.orders, s.nextOrderId) && UpdatesInv(s.updates, s.db.orders)
    requires OrdersMatch(s.db.orders, s.db.processed, s.past.published, s.past.erased)
    requires MessageInv(s.requests, s.db.orders.Keys, s.past.published, s.copies, s.dead)
    requires DedupInv(s.copies, s.db.processed) && Enabled(s, l) && o in s.db.orders
    ensures o in Step(s, l).db.orders
    ensures Climbs(s.db.orders[o], Step(s, l).db.orders[o]) <==> SavesTo(s, l, o) ==> TimelyStep(s, l)
  {
    match l
    case Work(c, step) =>
      assert CopyOk(s.copies[c], s.db.processed);
      StatusWorkStep(s, c, step, o);
    case Create(r, step) => StatusCreateStep(s, r, step, o);
    case UpdateStatus(u, step) => StatusSaveStep(s, u, step, o);
    case _ => StatusOtherStep(s, l);
  }

  /** One step: the status of o climbs or stays exactly unless an untimely save writes it. */
  lemma StatusStepExactly(stocks: map<int, Stock>, s: State, l: Label, o: nat)
    requires Reachable(stocks, s) && Enabled(s, l) && o in s.db.orders
    ensures o in Step(s, l).db.orders
    ensures Climbs(s.db.orders[o], Step(s, l).db.orders[o]) <==> SavesTo(s, l, o) ==> TimelyStep(s, l)
  {
    ReachableInv(stocks, s);
    StatusStep(s, l, o);
  }

  /** What the transition table and the worker let a status become. */
  predicate Edge(from: Status, to: Status, byWorker: bool) {
    || (byWorker && to == Processed)
    || (!byWorker && from == Pending && (to == Processing || to == Canceled))
    || (!byWorker && from == Processing && (to == Complete || to == Canceled))
  }

  /** The serial execution, entry by entry: which transactions are refused and what the others
      do to the tables. */
  lemma ReplayExactly(db0: Db, log: seq<Entry>, db: Db, e: Entry)
    requires Replay(db0, log) == Some(db)
    ensures var next := Replay(db0, log + [e]);
            match e
            case Created(_, id, dto) =>
              && (next.Some? <==>
                    && id !in db.orders
                    && (dto.key.Some? ==> forall o :: o in db.orders ==> db.orders[o].key != dto.key)
                    && forall i :: 0 <= i < |dto.items| ==>
                         var p := dto.items[i].product;
                         p in db.stocks && dto.items[i].amount <= db.stocks[p].stock - db.stocks[p].reserved)
              && (next.Some? ==>
                    var order := OrderRow(dto.userId, dto.addressId, dto.key, Pending, None);
                    && next.value == db.(stocks := next.value.stocks, orders := db.orders[id := order],
                                         items := db.items[id := StoredItems(dto.items)])
                    && next.value.stocks.Keys == db.stocks.Keys
                    && forall p :: p in db.stocks ==>
                         && next.value.stocks[p].stock == db.stocks[p].stock
                         && next.value.stocks[p].reserved == db.stocks[p].reserved + SumFor(dto.items, p))
            case ProcessedMessage(m, o, row, at) =>
              && (next.Some? <==> m !in db.processed && o in db.orders && row !in db.outbox)
              && (next.Some? ==>
                    var order := db.orders[o].(status := Processed, processedAt := Some(at.processed));
                    var written := OutboxRow(o, at.created, OutPending, 0, Some(at.due));
                    next.value == db.(processed := db.processed + {m}, orders := db.orders[o := order],
                                      outbox := db.outbox[row := written]))
            case StatusSet(o, to) =>
              && (next.Some? <==> o in db.orders && Edge(db.orders[o].status, to, false))
              && (next.Some? ==> next.value == db.(orders := db.orders[o := db.orders[o].(status := to)]))
            case StatusOverwritten(o, _, status, stamp) =>
              && (next.Some? <==> o in db.orders)
              && (next.Some? ==>
                    next.value == db.(orders := db.orders[o := db.orders[o].(status := status, processedAt := stamp)]))
            case Relayed(asOf, handled) =>
              && (next.Some? <==> forall r :: r in handled ==>
                    && r in db.outbox && (db.outbox[r].status == OutPending || db.outbox[r].status == OutFailed)
                    && (db.outbox[r].nextAttemptAt.None? || db.outbox[r].nextAttemptAt.value <= asOf))
              && (next.Some? ==> next.value == db.(outbox := HandleRows(db.outbox, handled)))
  {
    assert (log + [e])[..|log|] == log;
    if e.Created? { AcceptsCreated(db, e); }
  }

  lemma AcceptsCreated(db: Db, e: Entry)
    requires e.Created?
    ensures Accepts(db, e) <==>
      && e.id !in db.orders
      && (e.dto.key.Some? ==> forall o :: o in db.orders ==> db.orders[o].key != e.dto.key)
      && forall i :: 0 <= i < |e.dto.items| ==>
           var p := e.dto.items[i].product;
           p in db.stocks && e.dto.items[i].amount <= db.stocks[p].stock - db.stocks[p].reserved
  {
    assert forall i :: 0 <= i < |e.dto.items| ==>
      (LineAvailable(db.stocks, e.dto.items[i]) <==>
         var p := e.dto.items[i].product;
         p in db.stocks && e.dto.items[i].amount <= db.stocks[p].stock - db.stocks[p].reserved);
  }

  /** A request arrives with one line or more, each for one unit or more, without negative
      prices or discounts; products may repeat. */
  lemma ArriveExactly(s: State, r: nat, dto: CreateDto)
    ensures Enabled(s, Arrive(r, dto)) <==>
      && r !in s.requests && |dto.items| >= 1 && dto.key != Some("")
      && forall i :: 0 <= i < |dto.items| ==>
           dto.items[i].amount >= 1 && dto.items[i].price >= 0.0 && dto.items[i].discount >= 0.0
  {
  }

  /** An update starts exactly on an order and a transition of the table. */
  lemma ReadExactly(s: State, u: nat, o: nat, to: Status)
    ensures Enabled(s, UpdateStatus(u, ReadOrder(o, to))) <==>
      && u !in s.updates && o in s.db.orders && Edge(s.db.orders[o].status, to, false)
  {
  }

  /** A status changes by an edge exactly unless an untimely save changes it. */
  lemma EdgeExactly(stocks: map<int, Stock>, s: State, l: Label, o: nat)
    requires Reachable(stocks, s) && Enabled(s, l) && o in s.db.orders
    ensures o in Step(s, l).db.orders
    ensures var from, to := s.db.orders[o].status, Step(s, l).db.orders[o].status;
            (from == to || Edge(from, to, l.Work?)) <==> (SavesTo(s, l, o) ==> TimelyStep(s, l))
  {
    StatusStepExactly(stocks, s, l, o);
    ReachableUpdates(stocks, s);
    match l
    case Work(c, step) => WorkEdge(s, c, step, o);
    case UpdateStatus(u, step) => SaveEdge(s, u, step, o);
    case Create(r, step) => CreateEdge(stocks, s, r, step, o);
    case _ => StatusOtherStep(s, l);
  }

  lemma ReachableUpdates(stocks: map<int, Stock>, s: State)
    requires Reachable(stocks, s)
    ensures UpdatesInv(s.updates, s.db.orders)
  {
    ReachableInv(stocks, s);
  }

  lemma WorkEdge(s: State, c: nat, step: WorkStep, o: nat)
    requires CanWork(s, c, step) && o in s.db.orders
    ensures o in DoWork(s, c, step).db.orders
    ensures var from, to := s.db.orders[o].status, DoWork(s, c, step).db.orders[o].status;
            from == to || to == Processed
  {
  }

  lemma CreateEdge(stocks: map<int, Stock>, s: State, r: nat, step: CreateStep, o: nat)
    requires Reachable(stocks, s) && CanCreate(s, r, step) && o in s.db.orders
    ensures o in DoCreate(s, r, step).db.orders && DoCreate(s, r, step).db.orders[o] == s.db.orders[o]
  {
    ReachableOrders(stocks, s);
    StatusCreateStep(s, r, step, o);
  }

  lemma SaveEdge(s: State, u: nat, step: StatusStep, o: nat)
    requires UpdatesInv(s.updates, s.db.orders) && CanStatus(s, u, step) && o in s.db.orders
    ensures var l := UpdateStatus(u, step); var s' := Step(s, l);
            && o in s'.db.orders
            && var from, to := s.db.orders[o].status, s'.db.orders[o].status;
            (from == to || Edge(from, to, false)) <==> (SavesTo(s, l, o) ==> TimelyStep(s, l))
  {
    if step.WriteRow? { assert UpdateOk(s.updates[u], s.db.orders); }
  }

  /** Every change of the status of o along the run is an edge. */
  ghost predicate EdgesAlong(s: State, ls: seq<Label>, o: nat)
    requires CanRun(s, ls)
    decreases |ls|
  {
    ls == [] ||
    var s' := Step(s, ls[0]);
    && (o in s.db.orders ==>
          && o in s'.db.orders
          && var from, to := s.db.orders[o].status, s'.db.orders[o].status;
          from == to || Edge(from, to, ls[0].Work?))
    && EdgesAlong(s', ls[1..], o)
  }

  /** Along a run the status of an order moves from PENDING to PROCESSING or CANCELED, from
      PROCESSING to COMPLETE or CANCELED, and by a worker to PROCESSED, and in no other way, if
      and only if every save to it is timely. */
  lemma {:induction false} EdgesExactly(stocks: map<int, Stock>, s: State, ls: seq<Label>, o: nat)
    requires Reachable(stocks, s) && CanRun(s, ls) && o in s.db.orders
    ensures EdgesAlong(s, ls, o) <==> TimelyAlong(s, ls, o)
    decreases |ls|
  {
    if ls != [] {
      EdgeExactly(stocks, s, ls[0], o);
      ReachableStep(stocks, s, ls[0]);
      EdgesExactly(stocks, Step(s, ls[0]), ls[1..], o);
    }
  }

  /** How often the status of o changes along the run. */
  ghost function StatusChanges(s: State, ls: seq<Label>, o: nat): nat
    requires CanRun(s, ls)
    decreases |ls|
  {
    if ls == [] then 0
    else
      var s' := Step(s, ls[0]);
      (if o in s.db.orders && o in s'.db.orders && s.db.orders[o].status != s'.db.orders[o].status then 1 else 0)
      + StatusChanges(s', ls[1..], o)
  }

  /** The status of o climbs or stays in every step of the run. */
  ghost predicate ClimbsAlong(s: State, ls: seq<Label>, o: nat)
    requires CanRun(s, ls)
    decreases |ls|
  {
    ls == [] ||
    var s' := Step(s, ls[0]);
    (o in s.db.orders ==> o in s'.db.orders && Climbs(s.db.orders[o], s'.db.orders[o])) && ClimbsAlong(s', ls[1..], o)
  }

  ghost predicate TimelyAlong(s: State, ls: seq<Label>, o: nat)
    requires CanRun(s, ls)
    decreases |ls|
  {
    ls == [] || ((SavesTo(s, ls[0], o) ==> TimelyStep(s, ls[0])) && TimelyAlong(Step(s, ls[0]), ls[1..], o))
  }

  lemma {:induction false} ChangesBound(s: State, ls: seq<Label>, o: nat)
    requires CanRun(s, ls) && o in s.db.orders && ClimbsAlong(s, ls, o)
    ensures o in Run(s, ls).db.orders
    ensures Rank(s.db.orders[o].status) + StatusChanges(s, ls, o) <= Rank(Run(s, ls).db.orders[o].status)
    decreases |ls|
  {
    if ls != [] { ChangesBound(Step(s, ls[0]), ls[1..], o); }
  }

  lemma {:induction false} ClimbsIfTimely(stocks: map<int, Stock>, s: State, ls: seq<Label>, o: nat)
    requires Reachable(stocks, s) && CanRun(s, ls) && o in s.db.orders
    ensures o in Run(s, ls).db.orders && (ClimbsAlong(s, ls, o) <==> TimelyAlong(s, ls, o))
    decreases |ls|
  {
    if ls != [] {
      StatusStepExactly(stocks, s, ls[0], o);
      ReachableStep(stocks, s, ls[0]);
      ClimbsIfTimely(stocks, Step(s, ls[0]), ls[1..], o);
    }
  }

  /** Along any run from a reachable state the status of an order only climbs if and only if
      every save to it is timely; it then changes at most three times. */
  lemma StatusClimbs(stocks: map<int, Stock>, s: State, ls: seq<Label>, o: nat)
    requires Reachable(stocks, s) && CanRun(s, ls) && o in s.db.orders
    ensures o in Run(s, ls).db.orders
    ensures ClimbsAlong(s, ls, o) <==> TimelyAlong(s, ls, o)
    ensures TimelyAlong(s, ls, o) ==>
              Rank(s.db.orders[o].status) + StatusChanges(s, ls, o) <= Rank(Run(s, ls).db.orders[o].status)
    ensures TimelyAlong(s, ls, o) ==> StatusChanges(s, ls, o) <= 3
  {
    ClimbsIfTimely(stocks, s, ls, o);
    if TimelyAlong(s, ls, o) { ChangesBound(s, ls, o); }
  }

  // ---- processing times ----

  /** A save that loaded its row before the worker's commit and writes after it: it replaces
      PROCESSED and leaves the processing time. */
  predicate Unstamps(s: State, l: Label)
    requires Enabled(s, l)
  {
    IsSave(l) &&
    var u := s.updates[l.update];
    && s.db.orders[u.order].status == Processed
    && u.loaded.value.status != Processed && u.loaded.value.status != u.to
  }

  ghost predicate NoneUnstamps(s: State, ls: seq<Label>)
    requires CanRun(s, ls)
    decreases |ls|
  {
    ls == [] || (!Unstamps(s, ls[0]) && NoneUnstamps(Step(s, ls[0]), ls[1..]))
  }

  /** Every order carries a processing time exactly when it is PROCESSED. */
  ghost predicate AllStamped(orders: map<nat, OrderRow>) {
    forall o :: o in orders ==> Stamped(orders[o])
  }

  ghost predicate StampedAlong(s: State, ls: seq<Label>)
    requires CanRun(s, ls)
    decreases |ls|
  {
    AllStamped(s.db.orders) && (ls == [] || StampedAlong(Step(s, ls[0]), ls[1..]))
  }

  ghost predicate SeenStamped(updates: map<nat, Update>) {
    forall u :: u in updates ==>
      Stamped(updates[u].read) && (updates[u].loaded.Some? ==> Stamped(updates[u].loaded.value))
  }

  lemma StampSave(s: State, u: nat, step: StatusStep)
    requires UpdatesInv(s.updates, s.db.orders) && CanStatus(s, u, step)
    requires AllStamped(s.db.orders) && SeenStamped(s.updates)
    ensures var s' := DoStatus(s, u, step);
            SeenStamped(s'.updates) && (AllStamped(s'.db.orders) <==> !Unstamps(s, UpdateStatus(u, step)))
  {
    var s' := DoStatus(s, u, step);
    if step.WriteRow? {
      var update := s.updates[u];
      assert UpdateOk(update, s.db.orders) && update.order in s'.db.orders;
      assert Stamped(Saved(s.db.orders[update.order], update)) <==> !Unstamps(s, UpdateStatus(u, step));
    }
  }

  lemma StampCreate(s: State, r: nat, step: CreateStep)
    requires CanCreate(s, r, step) && AllStamped(s.db.orders)
    ensures AllStamped(DoCreate(s, r, step).db.orders) && DoCreate(s, r, step).updates == s.updates
  {
  }

  lemma StampWork(s: State, c: nat, step: WorkStep)
    requires CanWork(s, c, step) && AllStamped(s.db.orders)
    ensures AllStamped(DoWork(s, c, step).db.orders) && DoWork(s, c, step).updates == s.updates
  {
  }

  lemma StampStep(s: State, l: Label)
    requires UpdatesInv(s.updates, s.db.orders) && Enabled(s, l)
    requires AllStamped(s.db.orders) && SeenStamped(s.updates)
    ensures SeenStamped(Step(s, l).updates) && (AllStamped(Step(s, l).db.orders) <==> !Unstamps(s, l))
  {
    match l
    case Create(r, step) => StampCreate(s, r, step);
    case Work(c, step) => StampWork(s, c, step);
    case Relay(t, step) => RelayFrame(s, t, step);
    case UpdateStatus(u, step) => StampSave(s, u, step);
    case _ =>
  }

  lemma {:induction false} StampRun(stocks: map<int, Stock>, s: State, ls: seq<Label>)
    requires Inv(stocks, s) && CanRun(s, ls) && AllStamped(s.db.orders) && SeenStamped(s.updates)
    ensures StampedAlong(s, ls) <==> NoneUnstamps(s, ls)
    ensures NoneUnstamps(s, ls) ==> AllStamped(Run(s, ls).db.orders)
    decreases |ls|
  {
    if ls != [] {
      StampStep(s, ls[0]);
      StepKeeps(stocks, s, ls[0]);
      if !Unstamps(s, ls[0]) { StampRun(stocks, Step(s, ls[0]), ls[1..]); }
    }
  }

  /** In every state along a run every order carries a processing time exactly when it is
      PROCESSED, if and only if no save along the run replaces PROCESSED having loaded its row
      before it was. */
  lemma StampedExactly(stocks: map<int, Stock>, clock: Millis, ls: seq<Label>)
    requires CanRun(Init(stocks, clock), ls)
    ensures StampedAlong(Init(stocks, clock), ls) <==> NoneUnstamps(Init(stocks, clock), ls)
    ensures NoneUnstamps(Init(stocks, clock), ls) ==> AllStamped(Run(Init(stocks, clock), ls).db.orders)
  {
    InvInit(stocks, clock);
    StampRun(stocks, Init(stocks, clock), ls);
  }

  lemma TimelyKeepsStamp(s: State, l: Label)
    requires UpdatesInv(s.updates, s.db.orders) && Enabled(s, l) && TimelyStep(s, l)
    ensures !Unstamps(s, l)
  {
    if IsSave(l) { assert UpdateOk(s.updates[l.update], s.db.orders); }
  }

  lemma {:induction false} TimelyUnstampsNone(stocks: map<int, Stock>, s: State, ls: seq<Label>)
    requires Inv(stocks, s) && CanRun(s, ls) && AllTimely(s, ls)
    ensures NoneUnstamps(s, ls)
    decreases |ls|
  {
    if ls != [] {
      TimelyKeepsStamp(s, ls[0]);
      StepKeeps(stocks, s, ls[0]);
      TimelyUnstampsNone(stocks, Step(s, ls[0]), ls[1..]);
    }
  }

  /** A run of timely saves is such a run. */
  lemma ProcessedStamped(stocks: map<int, Stock>, clock: Millis, ls: seq<Label>, o: nat)
    requires CanRun(Init(stocks, clock), ls) && AllTimely(Init(stocks, clock), ls)
    requires o in Run(Init(stocks, clock), ls).db.orders
    ensures Stamped(Run(Init(stocks, clock), ls).db.orders[o])
  {
    InvInit(stocks, clock);
    TimelyUnstampsNone(stocks, Init(stocks, clock), ls);
    StampedExactly(stocks, clock, ls);
  }

  /** As long as every save was timely, the row an update reaches is the row it read, or one
      further up. */
  lemma UpdateFindsMoved(stocks: map<int, Stock>, clock: Millis, ls: seq<Label>, u: nat)
    requires CanRun(Init(stocks, clock), ls) && AllTimely(Init(stocks, clock), ls)
    requires u in Run(Init(stocks, clock), ls).updates
    ensures var s := Run(Init(stocks, clock), ls);
            var update := s.updates[u];
            && update.order in s.db.orders && Moved(update.read, s.db.orders[update.order])
            && (update.loaded.Some? ==> Moved(update.loaded.value, s.db.orders[update.order]))
  {
    InvInit(stocks, clock);
    RunKeeps(stocks, Init(stocks, clock), ls);
    CleanRun(stocks, Init(stocks, clock), ls);
    assert UpdateSteady(Run(Init(stocks, clock), ls).updates[u], Run(Init(stocks, clock), ls).db.orders);
  }
}
