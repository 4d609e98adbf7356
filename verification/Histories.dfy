/** The bounds on deliveries and handovers as counts of the labels of a run, and the times of
    first failures as the clock of the labels that made them. */
module Histories {
  import opened Basics
  import opened Tables
  import opened Pipeline
  import opened Relays
  import opened Invariants
  import opened Theorems

  function One(counted: bool): nat {
    if counted then 1 else 0
  }

  /** Deliveries of messages from `orders.process`. */
  function Delivered(ls: seq<Label>): nat {
    if ls == [] then 0 else One(ls[0].Work? && ls[0].work.Deliver?) + Delivered(ls[1..])
  }

  /** Deliveries put back to it. */
  function PutBack(ls: seq<Label>): nat {
    if ls == [] then 0 else One(ls[0].Work? && (ls[0].work.Redeliver? || ls[0].work.Detach?)) + PutBack(ls[1..])
  }

  /** Messages published by `create`. */
  function Published(ls: seq<Label>): nat {
    if ls == [] then 0 else One(ls[0].Create? && ls[0].create.Publish?) + Published(ls[1..])
  }

  /** Events of the row handed to `sendToQueue`. */
  function Handed(ls: seq<Label>, row: nat): nat {
    if ls == [] then 0
    else One(ls[0].Relay? && ls[0].relay == Handle(row, true)) + Handed(ls[1..], row)
  }

  /** Ticks rolled back while they held the row. */
  ghost function RolledBackWith(s: State, ls: seq<Label>, row: nat): nat
    requires CanRun(s, ls)
    decreases |ls|
  {
    if ls == [] then 0
    else
      One(ls[0].Relay? && ls[0].relay.Rollback? && row in s.ticks[ls[0].tick].rows)
      + RolledBackWith(Step(s, ls[0]), ls[1..], row)
  }

  /** The recorded counts, and what a label adds to them. */
  ghost predicate Counts(s: State, l: Label, s': State, row: nat) {
    && s'.past.delivered == s.past.delivered + One(l.Work? && l.work.Deliver?)
    && s'.past.redelivered == s.past.redelivered + One(l.Work? && (l.work.Redeliver? || l.work.Detach?))
    && |s'.past.published| == |s.past.published| + One(l.Create? && l.create.Publish?)
    && Handovers(s'.events, row) == Handovers(s.events, row) + One(l.Relay? && l.relay == Handle(row, true))
    && Rollbacks(s'.past.rollbacks, row) == Rollbacks(s.past.rollbacks, row)
         + One(l.Relay? && l.relay.Rollback? && l.tick in s.ticks && row in s.ticks[l.tick].rows)
  }

  lemma CountsCreate(s: State, r: nat, step: CreateStep, row: nat)
    requires CanCreate(s, r, step)
    ensures Counts(s, Create(r, step), DoCreate(s, r, step), row)
  {
    if step.Publish? {
      assert DoCreate(s, r, step).past.published.Keys == s.past.published.Keys + {step.m};
    }
  }

  lemma CountsWork(s: State, c: nat, step: WorkStep, row: nat)
    requires CanWork(s, c, step)
    ensures Counts(s, Work(c, step), DoWork(s, c, step), row)
  {
  }

  lemma CountsHandle(s: State, t: nat, r: nat, ok: bool, row: nat)
    requires CanRelay(s, t, Handle(r, ok))
    ensures Counts(s, Relay(t, Handle(r, ok)), DoRelay(s, t, Handle(r, ok)), row)
  {
    var m := s.ticks[t].rows[r];
    HandoverSnoc(s.events, Event(r, m.orderId, m.createdAt), row);
  }

  lemma CountsRollback(s: State, t: nat, row: nat)
    requires CanRelay(s, t, Rollback)
    ensures Counts(s, Relay(t, Rollback), DoRelay(s, t, Rollback), row)
  {
  }

  lemma CountsQuiet(s: State, t: nat, step: RelayStep, row: nat)
    requires CanRelay(s, t, step) && !step.Handle? && !step.Rollback?
    ensures var s' := DoRelay(s, t, step);
            && s'.events == s.events && s'.past.rollbacks == s.past.rollbacks && s'.past.delivered == s.past.delivered
            && s'.past.redelivered == s.past.redelivered && s'.past.published == s.past.published
  {
    match step
    case Begin(_) =>
    case LockDue(_) =>
    case CommitTick =>
  }

  lemma CountsRelay(s: State, t: nat, step: RelayStep, row: nat)
    requires CanRelay(s, t, step)
    ensures Counts(s, Relay(t, step), DoRelay(s, t, step), row)
  {
    match step
    case Handle(r, ok) => CountsHandle(s, t, r, ok, row);
    case Rollback => CountsRollback(s, t, row);
    case _ => CountsQuiet(s, t, step, row);
  }

  lemma CountsElse(s: State, l: Label, row: nat)
    requires Enabled(s, l) && (l.Arrive? || l.UpdateStatus? || l.Pass?)
    ensures Counts(s, l, Step(s, l), row)
  {
  }

  lemma CountsStep(s: State, l: Label, row: nat)
    requires Enabled(s, l)
    ensures Counts(s, l, Step(s, l), row)
  {
    match l
    case Create(r, step) => CountsCreate(s, r, step, row);
    case Work(c, step) => CountsWork(s, c, step, row);
    case Relay(t, step) => CountsRelay(s, t, step, row);
    case _ => CountsElse(s, l, row);
  }

  lemma {:induction false} CountsRun(s: State, ls: seq<Label>, row: nat)
    requires CanRun(s, ls)
    ensures var s' := Run(s, ls);
            && s'.past.delivered == s.past.delivered + Delivered(ls)
            && s'.past.redelivered == s.past.redelivered + PutBack(ls)
            && |s'.past.published| == |s.past.published| + Published(ls)
            && Handovers(s'.events, row) == Handovers(s.events, row) + Handed(ls, row)
            && Rollbacks(s'.past.rollbacks, row) == Rollbacks(s.past.rollbacks, row) + RolledBackWith(s, ls, row)
    decreases |ls|
  {
    if ls != [] {
      CountsStep(s, ls[0], row);
      CountsRun(Step(s, ls[0]), ls[1..], row);
    }
  }

  /** Along every run there are at most three deliveries for every message published and every
      delivery put back. */
  lemma DeliveriesCounted(stocks: map<int, Stock>, clock: Millis, ls: seq<Label>)
    requires CanRun(Init(stocks, clock), ls)
    ensures Delivered(ls) <= 3 * (Published(ls) + PutBack(ls))
  {
    CountsRun(Init(stocks, clock), ls, 0);
    DeliveryBound(stocks, Run(Init(stocks, clock), ls));
  }

  /** Along every run a row is handed over at most once more than ticks holding it were rolled
      back, and at least once if it is SENT. */
  lemma HandoversCounted(stocks: map<int, Stock>, clock: Millis, ls: seq<Label>, row: nat)
    requires CanRun(Init(stocks, clock), ls) && row in Run(Init(stocks, clock), ls).db.outbox
    ensures Handed(ls, row) <= 1 + RolledBackWith(Init(stocks, clock), ls, row)
    ensures Run(Init(stocks, clock), ls).db.outbox[row].status == OutSent ==> 1 <= Handed(ls, row)
  {
    CountsRun(Init(stocks, clock), ls, row);
    RelayHandovers(stocks, Run(Init(stocks, clock), ls));
  }

  /** A failed publish is dated by the clock of its label, and the first one of a row is kept by
      the commit of its tick and by nothing else. */
  lemma FailuresDated(stocks: map<int, Stock>, s: State, l: Label, row: nat)
    requires Reachable(stocks, s) && Enabled(s, l)
    ensures l.Relay? && l.relay == Handle(row, false) ==>
              var tick := Step(s, l).ticks[l.tick]; row in tick.handled && tick.handled[row] == FailedAt(s.clock)
    ensures var first, first' := s.past.firstFailure, Step(s, l).past.firstFailure;
            if l.Relay? && l.relay.CommitTick? && row in s.ticks[l.tick].handled
               && s.ticks[l.tick].handled[row].FailedAt? && row in s.db.outbox && s.db.outbox[row].attempts == 0
            then row in first' && first'[row] == s.ticks[l.tick].handled[row].at
            else (row in first' <==> row in first) && (row in first ==> first'[row] == first[row])
  {
    ReachableTicks(stocks, s);
    match l
    case Relay(t, step) => FailuresRelay(s, t, step, row);
    case Create(r, step) => FailuresCreate(s, r, step);
    case Work(c, step) => FailuresWork(s, c, step);
    case _ =>
  }

  lemma FailuresCreate(s: State, r: nat, step: CreateStep)
    requires CanCreate(s, r, step)
    ensures DoCreate(s, r, step).past.firstFailure == s.past.firstFailure
  {
  }

  lemma FailuresWork(s: State, c: nat, step: WorkStep)
    requires CanWork(s, c, step)
    ensures DoWork(s, c, step).past.firstFailure == s.past.firstFailure
  {
  }

  /** What a committing tick adds to the first failures. */
  lemma FailuresCommit(tick: Tick, outbox: map<nat, OutboxRow>, clock: Millis, first: map<nat, Millis>, row: nat)
    requires TickOk(tick, outbox, clock)
    ensures var first' := first + FirstFailures(tick);
            if row in tick.handled && tick.handled[row].FailedAt? && row in outbox && outbox[row].attempts == 0
            then row in first' && first'[row] == tick.handled[row].at
            else (row in first' <==> row in first) && (row in first ==> first'[row] == first[row])
  {
  }

  lemma FailuresRelay(s: State, t: nat, step: RelayStep, row: nat)
    requires TickInv(s.ticks, s.db.outbox, s.clock) && CanRelay(s, t, step)
    ensures step == Handle(row, false) ==>
              var tick := DoRelay(s, t, step).ticks[t]; row in tick.handled && tick.handled[row] == FailedAt(s.clock)
    ensures var first, first' := s.past.firstFailure, DoRelay(s, t, step).past.firstFailure;
            if step.CommitTick? && row in s.ticks[t].handled
               && s.ticks[t].handled[row].FailedAt? && row in s.db.outbox && s.db.outbox[row].attempts == 0
            then row in first' && first'[row] == s.ticks[t].handled[row].at
            else (row in first' <==> row in first) && (row in first ==> first'[row] == first[row])
  {
    match step
    case CommitTick =>
      assert TickOk(s.ticks[t], s.db.outbox, s.clock);
      FailuresCommit(s.ticks[t], s.db.outbox, s.clock, s.past.firstFailure, row);
    case _ =>
  }
}
