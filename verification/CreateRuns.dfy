/** `create` as a run of the machine: whatever the service's method can answer and leave, the
    machine's steps of one request answer and leave. */
module CreateRuns {
  import opened Basics
  import opened Tables
  import opened Pipeline
  import opened Transactions
  import opened OrdersService

  function Put(s: State, r: nat, q: Request): State {
    s.(requests := s.requests[r := q])
  }

  function Loaded(stocks: map<int, Stock>, products: set<int>): map<int, Stock> {
    map p | p in products && p in stocks :: stocks[p]
  }

  /** Prefixing a run by the label that leads from s to s'. */
  lemma Prepend(s: State, l: Label, s': State, rest: seq<Label>)
    requires Enabled(s, l) && Step(s, l) == s' && CanRun(s', rest)
    ensures CanRun(s, [l] + rest) && Run(s, [l] + rest) == Run(s', rest)
  {
    assert ([l] + rest)[1..] == rest;
  }

  // ---- the locks ----

  lemma LockOne(s: State, r: nat, p: int)
    requires r in s.requests && s.requests[r].phase.Locking?
    requires p in Products(s.requests[r].dto.items) && p in s.db.stocks && !RowLocked(s.requests, p)
    ensures var q := s.requests[r]; var s' := Put(s, r, q.(copies := q.copies[p := s.db.stocks[p]]));
            && Enabled(s, Create(r, LockRow(p))) && Step(s, Create(r, LockRow(p))) == s'
            && forall other :: other != p && !RowLocked(s.requests, other) ==> !RowLocked(s'.requests, other)
  {
    var q := s.requests[r];
    var s' := Put(s, r, q.(copies := q.copies[p := s.db.stocks[p]]));
    forall other | other != p && !RowLocked(s.requests, other)
      ensures !RowLocked(s'.requests, other)
    {
      assert other !in q.copies;
    }
  }

  lemma LoadedNext(copies: map<int, Stock>, stocks: map<int, Stock>, rows: set<int>, p: int)
    requires p in rows && p in stocks
    ensures copies[p := stocks[p]] + Loaded(stocks, rows - {p}) == copies + Loaded(stocks, rows)
  {
  }

  /** Free rows can all be locked, one after another. */
  lemma {:induction false} LockAll(s: State, r: nat, rows: set<int>) returns (steps: seq<Label>)
    requires r in s.requests && s.requests[r].phase.Locking? && rows <= Products(s.requests[r].dto.items)
    requires forall p :: p in rows ==> p in s.db.stocks && !RowLocked(s.requests, p)
    ensures CanRun(s, steps)
    ensures var q := s.requests[r]; Run(s, steps) == Put(s, r, q.(copies := q.copies + Loaded(s.db.stocks, rows)))
    decreases |rows|
  {
    var q := s.requests[r];
    if rows == {} {
      steps := [];
      assert q.copies + Loaded(s.db.stocks, rows) == q.copies;
      assert s.requests[r := q] == s.requests;
    } else {
      var p :| p in rows;
      LockOne(s, r, p);
      var q' := q.(copies := q.copies[p := s.db.stocks[p]]);
      var rest := LockAll(Put(s, r, q'), r, rows - {p});
      steps := [Create(r, LockRow(p))] + rest;
      Prepend(s, Create(r, LockRow(p)), Put(s, r, q'), rest);
      LoadedNext(q.copies, s.db.stocks, rows, p);
      PutTwice(s, r, q', q.(copies := q.copies + Loaded(s.db.stocks, rows)));
    }
  }

  lemma PutTwice(s: State, r: nat, q: Request, q': Request)
    ensures Put(Put(s, r, q), r, q') == Put(s, r, q')
  {
  }

  // ---- the reservations ----

  lemma ReserveNext(copies: map<int, Stock>, items: seq<Line>, n: nat)
    requires n < |items| && items[n].product in copies
    ensures var changed := ReserveAll(copies, items[..n]);
            ReserveAll(copies, items[..n + 1]) ==
                changed[items[n].product := Reserve(changed[items[n].product], items[n].amount)]
  {
    assert items[..n + 1][..n] == items[..n];
  }

  lemma {:induction false} ReserveSome(s: State, r: nat, n: nat) returns (steps: seq<Label>)
    requires r in s.requests && s.requests[r].phase == Reserving(0) && n <= |s.requests[r].dto.items|
    requires Products(s.requests[r].dto.items) <= s.requests[r].copies.Keys
    ensures CanRun(s, steps)
    ensures var q := s.requests[r];
            Run(s, steps) == Put(s, r, q.(phase := Reserving(n), copies := ReserveAll(q.copies, q.dto.items[..n])))
  {
    var q := s.requests[r];
    if n == 0 {
      steps := [];
      assert ReserveAll(q.copies, q.dto.items[..0]) == q.copies;
      assert s.requests[r := q] == s.requests;
    } else {
      steps := ReserveSome(s, r, n - 1);
      var items := q.dto.items;
      assert items[n - 1].product in Products(items);
      ReserveNext(q.copies, items, n - 1);
      var q1 := q.(phase := Reserving(n - 1), copies := ReserveAll(q.copies, items[..n - 1]));
      var q2 := q.(phase := Reserving(n), copies := ReserveAll(q.copies, items[..n]));
      PutTwice(s, r, q1, q2);
      Extend(s, steps, Put(s, r, q1), Create(r, ReserveLine), Put(s, r, q2));
      steps := steps + [Create(r, ReserveLine)];
    }
  }

  // ---- the transaction ----

  /** Its transaction is open, has locked nothing, and waits for nobody. */
  ghost predicate Unhindered(s: State, r: nat) {
    && r in s.requests && s.requests[r].phase.Locking? && s.requests[r].copies == map[] && !s.requests[r].committed
    && (forall p :: p in Products(s.requests[r].dto.items) && p in s.db.stocks ==> !RowLocked(s.requests, p))
    && !KeyWaits(s.requests, s.requests[r].dto.key)
  }

  function Checked(stocks: map<int, Stock>, q: Request): Request {
    if Available(stocks, q.dto.items)
    then q.(phase := Validated, copies := Loaded(stocks, Products(q.dto.items)))
    else q.(phase := Finished(Threw(Conflict)))
  }

  lemma ToValidated(s: State, r: nat) returns (steps: seq<Label>)
    requires Unhindered(s, r)
    ensures CanRun(s, steps) && Run(s, steps) == Put(s, r, Checked(s.db.stocks, s.requests[r]))
  {
    var q := s.requests[r];
    var products := Products(q.dto.items);
    var rows := set p | p in products && p in s.db.stocks;
    var locked := q.(copies := Loaded(s.db.stocks, products));
    steps := LockAll(s, r, rows);
    assert map[] + Loaded(s.db.stocks, rows) == Loaded(s.db.stocks, products);
    AvailableLocked(s.db.stocks, locked.copies, q.dto.items);
    PutTwice(s, r, locked, Checked(s.db.stocks, q));
    Extend(s, steps, Put(s, r, locked), Create(r, Validate), Put(s, r, Checked(s.db.stocks, q)));
    steps := steps + [Create(r, Validate)];
  }

  lemma KeyStaysFree(s: State, r: nat, q: Request, key: Option<string>)
    requires !KeyWaits(s.requests, key) && !HoldsKey(q)
    ensures !KeyWaits(Put(s, r, q).requests, key)
  {
  }

  /** The row is inserted, or the unique index refuses it; its id is drawn either way. */
  ghost function AfterInsert(s: State, r: nat): State
    requires r in s.requests
  {
    var q := s.requests[r];
    Put(s, r, if KeyFree(s.db.orders, q.dto.key)
              then q.(phase := Inserted, orderId := s.nextOrderId, copies := Loaded(s.db.stocks, Products(q.dto.items)))
              else q.(phase := Raced)).(nextOrderId := s.nextOrderId + 1)
  }

  lemma ToInserted(s: State, r: nat) returns (steps: seq<Label>)
    requires Unhindered(s, r) && Available(s.db.stocks, s.requests[r].dto.items)
    ensures CanRun(s, steps) && Run(s, steps) == AfterInsert(s, r)
  {
    var q := s.requests[r];
    var checked := Checked(s.db.stocks, q);
    steps := ToValidated(s, r);
    KeyStaysFree(s, r, checked, q.dto.key);
    PutTwice(s, r, checked, AfterInsert(s, r).requests[r]);
    Extend(s, steps, Put(s, r, checked), Create(r, Insert), AfterInsert(s, r));
    steps := steps + [Create(r, Insert)];
  }

  lemma ToReserved(s: State, r: nat) returns (steps: seq<Label>)
    requires r in s.requests && s.requests[r].phase.Inserted?
    requires Products(s.requests[r].dto.items) <= s.requests[r].copies.Keys
    ensures CanRun(s, steps)
    ensures var q := s.requests[r];
            Run(s, steps)
            == Put(s, r, q.(phase := Reserving(|q.dto.items|), copies := ReserveAll(q.copies, q.dto.items)))
  {
    var q := s.requests[r];
    var saved := q.(phase := Reserving(0));
    var n := |q.dto.items|;
    var rest := ReserveSome(Put(s, r, saved), r, n);
    assert q.dto.items[..n] == q.dto.items;
    Prepend(s, Create(r, SaveItems), Put(s, r, saved), rest);
    PutTwice(s, r, saved, q.(phase := Reserving(n), copies := ReserveAll(q.copies, q.dto.items)));
    steps := [Create(r, SaveItems)] + rest;
  }

  /** The state the transaction leaves. */
  function AfterTx(s: State, r: nat, result: TxResult): State
    requires r in s.requests
  {
    var q := s.requests[r];
    match result
    case TxCommitted(id) =>
      Put(s, r, q.(phase := Committed, orderId := id, committed := true))
      .(db := ApplyCreate(s.db, id, q.dto), nextOrderId := id + 1,
        past := s.past.(log := s.past.log + [Created(r, id, q.dto)]))
    case TxConflict => Put(s, r, q.(phase := Finished(Threw(Conflict))))
    case TxRaced => Put(s, r, q.(phase := Raced)).(nextOrderId := s.nextOrderId + 1)
    case TxError => Put(s, r, q.(phase := Finished(Threw(Internal))))
  }

  lemma ToCommitted(s: State, r: nat) returns (steps: seq<Label>)
    requires Unhindered(s, r) && Available(s.db.stocks, s.requests[r].dto.items)
    requires KeyFree(s.db.orders, s.requests[r].dto.key)
    ensures CanRun(s, steps) && Run(s, steps) == AfterTx(s, r, TxCommitted(s.nextOrderId))
  {
    var q := s.requests[r];
    var copies := Loaded(s.db.stocks, Products(q.dto.items));
    AvailableLocked(s.db.stocks, copies, q.dto.items);
    var front := ToInserted(s, r);
    var inserted := AfterInsert(s, r);
    var middle := ToReserved(inserted, r);
    RunAppend(s, front, middle);
    var reserved := q.(phase := Reserving(|q.dto.items|), orderId := s.nextOrderId,
                       copies := ReserveAll(copies, q.dto.items));
    CommitReserved(s, inserted, r, reserved);
    Extend(s, front + middle, Put(inserted, r, reserved), Create(r, Commit), AfterTx(s, r, TxCommitted(s.nextOrderId)));
    steps := front + middle + [Create(r, Commit)];
  }

  lemma CommitReserved(s: State, inserted: State, r: nat, reserved: Request)
    requires r in s.requests && s.requests[r].copies == map[] && r in inserted.requests
    requires var q := s.requests[r]; var copies := Loaded(s.db.stocks, Products(q.dto.items));
             && Products(q.dto.items) <= copies.Keys
             && inserted == Put(s, r, inserted.requests[r]).(nextOrderId := s.nextOrderId + 1)
             && reserved == q.(phase := Reserving(|q.dto.items|), orderId := s.nextOrderId,
                               copies := ReserveAll(copies, q.dto.items))
    ensures CanCreate(Put(inserted, r, reserved), r, Commit)
    ensures DoCreate(Put(inserted, r, reserved), r, Commit) == AfterTx(s, r, TxCommitted(s.nextOrderId))
  {
    var q := s.requests[r];
    var copies := Loaded(s.db.stocks, Products(q.dto.items));
    StagedIsApplied(s.db.stocks, copies, reserved.copies, q.dto.items);
    var before, after := Put(inserted, r, reserved), AfterTx(s, r, TxCommitted(s.nextOrderId));
    assert DoCreate(before, r, Commit).requests == after.requests;
  }

  /** However the service's transaction ends, the machine's can end. */
  lemma TransactIsRun(s: State, r: nat, fault: Fault, result: TxResult) returns (steps: seq<Label>)
    requires Unhindered(s, r) && TxEnds(s.db, s.nextOrderId, s.requests[r].dto, fault, result)
    ensures CanRun(s, steps) && Run(s, steps) == AfterTx(s, r, result)
  {
    match result
    case TxCommitted(_) => steps := ToCommitted(s, r);
    case TxConflict => steps := ToValidated(s, r);
    case TxRaced => steps := ToInserted(s, r);
    case TxError =>
      steps := [Create(r, Fail)];
      RunOne(s, steps[0]);
  }

  // ---- from the lookup to the answer ----

  lemma CommittedAnswers(s: State, r: nat, fault: Fault, m: MessageId, copy: nat, payment: Payment)
    returns (steps: seq<Label>)
    requires r in s.requests && s.requests[r].phase.Committed? && m !in s.past.published && copy !in s.copies
    ensures CanRun(s, steps)
    ensures var q, s' := s.requests[r], Run(s, steps);
            var outcome := if fault == AtPublish then Threw(Internal) else PaymentOutcome(q.orderId, payment);
            && r in s'.requests && s'.requests[r].phase == Finished(outcome) && s'.requests[r].committed == q.committed
            && s'.db == s.db
            && s'.copies == (if fault == AtPublish then s.copies
                             else s.copies[copy := Fresh(Msg(m, q.orderId, 1, false))])
  {
    if fault == AtPublish {
      steps := [Create(r, FailAfterCommit)];
      RunOne(s, steps[0]);
    } else {
      var published := DoCreate(s, r, Publish(m, copy));
      RunOne(s, Create(r, Publish(m, copy)));
      Extend(s, [Create(r, Publish(m, copy))], published, Create(r, Pay(payment)),
             DoCreate(published, r, Pay(payment)));
      steps := [Create(r, Publish(m, copy))] + [Create(r, Pay(payment))];
    }
  }

  lemma RacedAnswers(s: State, r: nat, o: nat)
    requires r in s.requests && s.requests[r].phase.Raced? && s.requests[r].dto.key.Some? && UniqueKeys(s.db.orders)
    requires o in s.db.orders && s.db.orders[o].key == s.requests[r].dto.key
    ensures CanRun(s, [Create(r, LookupAgain)])
    ensures Run(s, [Create(r, LookupAgain)]) == Put(s, r, s.requests[r].(phase := Finished(Returned(o, false))))
  {
    RunOne(s, Create(r, LookupAgain));
  }

  /** The request has answered, and these tables and copies are left. */
  ghost predicate Answered(s: State, r: nat, outcome: Outcome, committed: bool, db: Db, copies: map<nat, Copy>) {
    && r in s.requests && s.requests[r].phase == Finished(outcome) && s.requests[r].committed == committed
    && s.db == db && s.copies == copies
  }

  function CopiesAfter(s: State, id: nat, fault: Fault, committed: bool, m: MessageId, copy: nat): map<nat, Copy> {
    if committed && fault != AtPublish then s.copies[copy := Fresh(Msg(m, id, 1, false))] else s.copies
  }

  lemma CommitIsRun(s: State, r: nat, fault: Fault, m: MessageId, copy: nat, payment: Payment)
    returns (steps: seq<Label>)
    requires Unhindered(s, r) && Commits(s.db, s.requests[r].dto, fault)
    requires m !in s.past.published && copy !in s.copies
    ensures CanRun(s, steps)
    ensures var id := s.nextOrderId;
            var outcome := if fault == AtPublish then Threw(Internal) else PaymentOutcome(id, payment);
            Answered(Run(s, steps), r, outcome, true,
                     ApplyCreate(s.db, id, s.requests[r].dto), CopiesAfter(s, id, fault, true, m, copy))
  {
    var result := TxCommitted(s.nextOrderId);
    var front := TransactIsRun(s, r, fault, result);
    var rest := CommittedAnswers(AfterTx(s, r, result), r, fault, m, copy, payment);
    RunAppend(s, front, rest);
    steps := front + rest;
  }

  lemma FailureIsRun(s: State, r: nat, fault: Fault, outcome: Outcome) returns (steps: seq<Label>)
    requires Unhindered(s, r) && UniqueKeys(s.db.orders)
    requires var dto := s.requests[r].dto;
             match outcome
             case Returned(o, created) =>
               && !created && dto.key.Some? && o in s.db.orders && s.db.orders[o].key == dto.key
               && Available(s.db.stocks, dto.items)
             case Threw(Conflict) => !Available(s.db.stocks, dto.items)
             case Threw(failure) => failure == Internal && BeforeCommit(fault, dto.items)
    ensures CanRun(s, steps) && Answered(Run(s, steps), r, outcome, false, s.db, s.copies)
  {
    match outcome
    case Returned(o, _) =>
      var front := TransactIsRun(s, r, fault, TxRaced);
      var raced := AfterTx(s, r, TxRaced);
      RacedAnswers(raced, r, o);
      RunAppend(s, front, [Create(r, LookupAgain)]);
      steps := front + [Create(r, LookupAgain)];
    case Threw(Conflict) => steps := TransactIsRun(s, r, fault, TxConflict);
    case Threw(_) => steps := TransactIsRun(s, r, fault, TxError);
  }

  lemma LookupHits(s: State, r: nat, o: nat)
    requires r in s.requests && s.requests[r].phase.Looking? && Hit(s.db, s.requests[r].dto) && UniqueKeys(s.db.orders)
    requires o in s.db.orders && s.db.orders[o].key == s.requests[r].dto.key
    ensures CanRun(s, [Create(r, Lookup)])
    ensures Run(s, [Create(r, Lookup)]) == Put(s, r, s.requests[r].(phase := Finished(Returned(o, false))))
  {
    RunOne(s, Create(r, Lookup));
  }

  /** A lookup that finds the key ends the request. Otherwise the rest of the system may go
      on until the request gets its locks; every answer the service's method can give from
      there, with what it leaves behind, is reached by steps of the machine. */
  lemma CreateIsRun(s: State, r: nat, others: seq<Label>, fault: Fault, m: MessageId, copy: nat, payment: Payment,
                    outcome: Outcome, committed: bool, after: Db)
    returns (steps: seq<Label>)
    requires r in s.requests && s.requests[r].phase.Looking? && !s.requests[r].committed && UniqueKeys(s.db.orders)
    requires CanRun(Step(s, Create(r, Lookup)), others)
    requires var atLock := Run(Step(s, Create(r, Lookup)), others);
             && UniqueKeys(atLock.db.orders) && m !in atLock.past.published && copy !in atLock.copies
             && (!Hit(s.db, s.requests[r].dto) ==> Unhindered(atLock, r) && atLock.requests[r].dto == s.requests[r].dto)
             && CreateEnds(s.db, atLock.db, atLock.nextOrderId, s.requests[r].dto, fault, payment, outcome, committed,
                           after)
    ensures CanRun(s, steps)
    ensures var atLock := Run(Step(s, Create(r, Lookup)), others);
            Answered(Run(s, steps), r, outcome, committed, after,
                     if Hit(s.db, s.requests[r].dto) then s.copies
                     else CopiesAfter(atLock, atLock.nextOrderId, fault, committed, m, copy))
  {
    if Hit(s.db, s.requests[r].dto) {
      LookupHits(s, r, outcome.order);
      steps := [Create(r, Lookup)];
    } else {
      var looked := Step(s, Create(r, Lookup));
      var atLock := Run(looked, others);
      var rest;
      if committed {
        rest := CommitIsRun(atLock, r, fault, m, copy, payment);
      } else {
        rest := FailureIsRun(atLock, r, fault, outcome);
      }
      RunAppend(looked, others, rest);
      Prepend(s, Create(r, Lookup), looked, others + rest);
      steps := [Create(r, Lookup)] + (others + rest);
    }
  }
}
