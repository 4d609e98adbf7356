/** What every step keeps about overlapping relay ticks and the outbox. */
module Relays {
  import opened Basics
  import opened Tables
  import opened Pipeline

  // ---- rows under lock ----

  /** A locked row is as committed, or as the tick's own handling has left it. */
  ghost predicate TickOk(tick: Tick, outbox: map<nat, OutboxRow>, clock: Millis) {
    && tick.handled.Keys <= tick.rows.Keys <= outbox.Keys
    && |tick.rows| <= BATCH
    && tick.asOf <= clock
    && (forall r :: r in tick.rows ==>
          && Due(outbox[r], tick.asOf)
          && tick.rows[r] == if r in tick.handled then HandleRow(outbox[r], tick.handled[r]) else outbox[r])
    && (forall r :: r in tick.handled && tick.handled[r].FailedAt? ==> tick.asOf <= tick.handled[r].at <= clock)
  }

  ghost predicate TickInv(ticks: map<nat, Tick>, outbox: map<nat, OutboxRow>, clock: Millis) {
    && (forall t :: t in ticks ==> TickOk(ticks[t], outbox, clock))
    && (forall t1, t2, r :: t1 in ticks && t2 in ticks && r in ticks[t1].rows && r in ticks[t2].rows ==> t1 == t2)
  }

  lemma TickSet(ticks: map<nat, Tick>, outbox: map<nat, OutboxRow>, clock: Millis, t: nat, tick: Tick)
    requires TickInv(ticks, outbox, clock) && TickOk(tick, outbox, clock)
    requires forall x, r :: x in ticks && x != t && r in ticks[x].rows ==> r !in tick.rows
    ensures TickInv(ticks[t := tick], outbox, clock)
  {
  }

  lemma TickLocked(tick: Tick, outbox: map<nat, OutboxRow>, clock: Millis, row: nat)
    requires TickOk(tick, outbox, clock) && row in outbox && Due(outbox[row], tick.asOf)
    requires |tick.rows| < BATCH && tick.handled == map[]
    ensures TickOk(tick.(rows := tick.rows[row := outbox[row]]), outbox, clock)
  {
    assert tick.rows[row := outbox[row]].Keys == tick.rows.Keys + {row};
  }

  lemma TickHandled(tick: Tick, outbox: map<nat, OutboxRow>, clock: Millis, row: nat, h: Handling)
    requires TickOk(tick, outbox, clock) && row in tick.rows && row !in tick.handled
    requires h.FailedAt? ==> h.at == clock
    ensures TickOk(tick.(rows := tick.rows[row := HandleRow(tick.rows[row], h)], handled := tick.handled[row := h]),
                   outbox, clock)
  {
    assert tick.rows[row := HandleRow(tick.rows[row], h)].Keys == tick.rows.Keys;
  }

  lemma TickLocal(s: State, t: nat, step: RelayStep)
    requires TickInv(s.ticks, s.db.outbox, s.clock) && CanRelay(s, t, step)
    requires !step.CommitTick? && !step.Rollback?
    ensures TickOk(DoRelay(s, t, step).ticks[t], s.db.outbox, s.clock)
  {
    match step
    case LockDue(row) => TickLocked(s.ticks[t], s.db.outbox, s.clock, row);
    case Handle(row, ok) =>
      var h := if ok then Handed else FailedAt(s.clock);
      TickHandled(s.ticks[t], s.db.outbox, s.clock, row, h);
    case _ =>
  }

  /** Other ticks hold none of the rows the commit writes. */
  lemma TickAfterClose(s: State, t: nat, step: RelayStep)
    requires TickInv(s.ticks, s.db.outbox, s.clock) && CanRelay(s, t, step)
    requires step.CommitTick? || step.Rollback?
    ensures var s' := DoRelay(s, t, step); TickInv(s'.ticks, s'.db.outbox, s'.clock)
  {
    var s' := DoRelay(s, t, step);
    var tick := s.ticks[t];
    assert TickOk(tick, s.db.outbox, s.clock);
    forall x | x in s'.ticks
      ensures TickOk(s'.ticks[x], s'.db.outbox, s.clock)
    {
      assert TickOk(s.ticks[x], s.db.outbox, s.clock);
      assert forall r :: r in s.ticks[x].rows ==> r !in tick.rows;
    }
  }

  lemma TickAfterRelay(s: State, t: nat, step: RelayStep)
    requires TickInv(s.ticks, s.db.outbox, s.clock) && CanRelay(s, t, step)
    ensures var s' := DoRelay(s, t, step); TickInv(s'.ticks, s'.db.outbox, s'.clock)
  {
    if step.CommitTick? || step.Rollback? {
      TickAfterClose(s, t, step);
    } else {
      TickLocal(s, t, step);
      var tick := DoRelay(s, t, step).ticks[t];
      if step.LockDue? {
        assert forall x :: x in s.ticks ==> step.row !in s.ticks[x].rows;
      }
      assert forall r :: r in tick.rows ==> (t in s.ticks && r in s.ticks[t].rows) || (step.LockDue? && r == step.row);
      TickSet(s.ticks, s.db.outbox, s.clock, t, tick);
    }
  }

  /** New rows appear, committed rows and the clock move on as allowed. */
  lemma TickFrame(ticks: map<nat, Tick>, outbox: map<nat, OutboxRow>, outbox': map<nat, OutboxRow>, clock: Millis,
                  clock': Millis)
    requires TickInv(ticks, outbox, clock) && clock <= clock'
    requires outbox.Keys <= outbox'.Keys && forall r :: r in outbox ==> outbox'[r] == outbox[r]
    ensures TickInv(ticks, outbox', clock')
  {
    assert forall t :: t in ticks ==> TickOk(ticks[t], outbox, clock) && TickOk(ticks[t], outbox', clock');
  }

  /** The tick's absolute writes are its handling applied to the rows as they are at the
      commit, and every row was still due. */
  lemma TickCommitIsSerial(s: State, t: nat)
    requires TickInv(s.ticks, s.db.outbox, s.clock) && CanRelay(s, t, CommitTick)
    ensures var e := Relayed(s.ticks[t].asOf, s.ticks[t].handled);
            Accepts(s.db, e) && DoRelay(s, t, CommitTick).db == Apply(s.db, e)
  {
    var tick := s.ticks[t];
    assert TickOk(tick, s.db.outbox, s.clock);
    assert s.db.outbox + tick.rows == HandleRows(s.db.outbox, tick.handled);
  }

  // ---- handovers to domain.events ----

  /** How often the row was handed to `sendToQueue`. */
  function Handovers(events: seq<Event>, row: nat): nat {
    if events == [] then 0
    else Handovers(events[..|events| - 1], row) + if events[|events| - 1].row == row then 1 else 0
  }

  lemma HandoverSnoc(events: seq<Event>, e: Event, row: nat)
    ensures Handovers(events + [e], row) == Handovers(events, row) + if e.row == row then 1 else 0
  {
    assert (events + [e])[..|events|] == events;
  }

  /** An open tick has handed the row over. */
  ghost predicate HandedOpen(ticks: map<nat, Tick>, row: nat) {
    exists t :: t in ticks && row in ticks[t].handled && ticks[t].handled[row] == Handed
  }

  ghost predicate HandoverOk(ticks: map<nat, Tick>, row: OutboxRow, r: nat, handovers: nat, rollbacks: nat) {
    && (row.status == OutSent || HandedOpen(ticks, r) ==> 1 <= handovers <= 1 + rollbacks)
    && (row.status != OutSent && !HandedOpen(ticks, r) ==> handovers <= rollbacks)
  }

  /** Events carry what is in their rows. */
  ghost predicate EventsMatch(events: seq<Event>, outbox: map<nat, OutboxRow>) {
    forall i :: 0 <= i < |events| ==>
      && events[i].row in outbox && events[i].orderId == outbox[events[i].row].orderId
      && events[i].createdAt == outbox[events[i].row].createdAt
  }

  ghost predicate HandoverInv(ticks: map<nat, Tick>, outbox: map<nat, OutboxRow>, events: seq<Event>,
                              rollbacks: map<nat, nat>) {
    && (forall r :: r in outbox ==>
          HandoverOk(ticks, outbox[r], r, Handovers(events, r), Rollbacks(rollbacks, r)))
    && EventsMatch(events, outbox)
  }

  lemma EventsSnoc(events: seq<Event>, outbox: map<nat, OutboxRow>, e: Event)
    requires EventsMatch(events, outbox) && e.row in outbox
    requires e.orderId == outbox[e.row].orderId && e.createdAt == outbox[e.row].createdAt
    ensures EventsMatch(events + [e], outbox)
  {
  }

  lemma HandoverAfterHandle(s: State, t: nat, row: nat, ok: bool)
    requires TickInv(s.ticks, s.db.outbox, s.clock) && CanRelay(s, t, Handle(row, ok))
    requires HandoverInv(s.ticks, s.db.outbox, s.events, s.past.rollbacks)
    ensures var s' := DoRelay(s, t, Handle(row, ok)); HandoverInv(s'.ticks, s'.db.outbox, s'.events, s'.past.rollbacks)
  {
    var s' := DoRelay(s, t, Handle(row, ok));
    var tick, tick' := s.ticks[t], s'.ticks[t];
    assert TickOk(tick, s.db.outbox, s.clock);
    if ok { EventsSnoc(s.events, s.db.outbox, Event(row, tick.rows[row].orderId, tick.rows[row].createdAt)); }
    assert !HandedOpen(s.ticks, row) by {
      assert forall x :: x in s.ticks && row in s.ticks[x].handled ==> TickOk(s.ticks[x], s.db.outbox, s.clock);
    }
    forall r | r in s.db.outbox
      ensures HandoverOk(s'.ticks, s.db.outbox[r], r, Handovers(s'.events, r), Rollbacks(s'.past.rollbacks, r))
    {
      if ok { HandoverSnoc(s.events, Event(row, tick.rows[row].orderId, tick.rows[row].createdAt), r); }
      HandedAfterHandle(s.ticks, tick', t, row, r);
      assert HandoverOk(s.ticks, s.db.outbox[r], r, Handovers(s.events, r), Rollbacks(s.past.rollbacks, r));
    }
  }

  lemma HandedAfterHandle(ticks: map<nat, Tick>, tick': Tick, t: nat, row: nat, r: nat)
    requires t in ticks && row !in ticks[t].handled && row in tick'.handled
    requires tick'.handled == ticks[t].handled[row := tick'.handled[row]]
    requires !HandedOpen(ticks, row)
    ensures HandedOpen(ticks[t := tick'], r) <==> HandedOpen(ticks, r) || (r == row && tick'.handled[row] == Handed)
  {
    var ticks' := ticks[t := tick'];
    assert ticks'[t] == tick';
    if HandedOpen(ticks, r) {
      var x :| x in ticks && r in ticks[x].handled && ticks[x].handled[r] == Handed;
      assert x in ticks' && r in ticks'[x].handled && ticks'[x].handled[r] == Handed;
    }
  }

  /** Ticks t is gone; the other ones are as they were. */
  lemma HandedWithout(ticks: map<nat, Tick>, t: nat, r: nat)
    requires t in ticks
    ensures HandedOpen(ticks, r) <==>
            HandedOpen(ticks - {t}, r) || (r in ticks[t].handled && ticks[t].handled[r] == Handed)
  {
    if HandedOpen(ticks, r) {
      var x :| x in ticks && r in ticks[x].handled && ticks[x].handled[r] == Handed;
      assert x == t || x in (ticks - {t});
    }
    if HandedOpen(ticks - {t}, r) {
      var x :| x in (ticks - {t}) && r in (ticks - {t})[x].handled && (ticks - {t})[x].handled[r] == Handed;
      assert x in ticks;
    }
  }

  /** Only the tick that holds a row can have handed it over. */
  lemma HandedByHolder(s: State, t: nat, r: nat)
    requires TickInv(s.ticks, s.db.outbox, s.clock) && t in s.ticks
    ensures HandedOpen(s.ticks - {t}, r) <==> r !in s.ticks[t].rows && HandedOpen(s.ticks, r)
    ensures r in s.ticks[t].rows ==>
      (HandedOpen(s.ticks, r) <==> r in s.ticks[t].handled && s.ticks[t].handled[r] == Handed)
  {
    HandedWithout(s.ticks, t, r);
    assert TickOk(s.ticks[t], s.db.outbox, s.clock);
    if r in s.ticks[t].rows {
      forall x | x in s.ticks - {t}
        ensures r !in s.ticks[x].handled
      {
        assert TickOk(s.ticks[x], s.db.outbox, s.clock);
      }
    }
  }

  /** The row with what its own tick did to it. */
  lemma HandoverRowCommit(ticks: map<nat, Tick>, ticks': map<nat, Tick>, row: OutboxRow, h: Handling, r: nat, n: nat,
                          k: nat)
    requires HandoverOk(ticks, row, r, n, k) && row.status != OutSent
    requires HandedOpen(ticks, r) <==> h == Handed
    requires !HandedOpen(ticks', r)
    ensures HandoverOk(ticks', HandleRow(row, h), r, n, k)
  {
  }

  lemma HandoverRow(s: State, t: nat, r: nat)
    requires TickInv(s.ticks, s.db.outbox, s.clock) && CanRelay(s, t, CommitTick) && r in s.db.outbox
    requires HandoverOk(s.ticks, s.db.outbox[r], r, Handovers(s.events, r), Rollbacks(s.past.rollbacks, r))
    ensures HandoverOk(s.ticks - {t}, (s.db.outbox + s.ticks[t].rows)[r], r, Handovers(s.events, r),
                       Rollbacks(s.past.rollbacks, r))
  {
    var tick := s.ticks[t];
    assert TickOk(tick, s.db.outbox, s.clock);
    HandedByHolder(s, t, r);
    if r in tick.rows {
      assert r in tick.handled;
      HandoverRowCommit(s.ticks, s.ticks - {t}, s.db.outbox[r], tick.handled[r], r,
                        Handovers(s.events, r), Rollbacks(s.past.rollbacks, r));
    }
  }

  lemma EventsAfterCommit(tick: Tick, outbox: map<nat, OutboxRow>, clock: Millis, events: seq<Event>)
    requires TickOk(tick, outbox, clock) && EventsMatch(events, outbox)
    ensures EventsMatch(events, outbox + tick.rows)
  {
  }

  lemma HandoverAfterCommit(s: State, t: nat)
    requires TickInv(s.ticks, s.db.outbox, s.clock) && CanRelay(s, t, CommitTick)
    requires HandoverInv(s.ticks, s.db.outbox, s.events, s.past.rollbacks)
    ensures HandoverInv(s.ticks - {t}, s.db.outbox + s.ticks[t].rows, s.events, s.past.rollbacks)
  {
    assert TickOk(s.ticks[t], s.db.outbox, s.clock);
    EventsAfterCommit(s.ticks[t], s.db.outbox, s.clock, s.events);
    forall r | r in s.db.outbox
      ensures HandoverOk(s.ticks - {t}, (s.db.outbox + s.ticks[t].rows)[r], r,
                         Handovers(s.events, r), Rollbacks(s.past.rollbacks, r))
    {
      HandoverRow(s, t, r);
    }
  }

  lemma HandoverAfterRollback(s: State, t: nat)
    requires TickInv(s.ticks, s.db.outbox, s.clock) && CanRelay(s, t, Rollback)
    requires HandoverInv(s.ticks, s.db.outbox, s.events, s.past.rollbacks)
    ensures HandoverInv(s.ticks - {t}, s.db.outbox, s.events, CountRollback(s.past.rollbacks, s.ticks[t].rows.Keys))
  {
    var rollbacks' := CountRollback(s.past.rollbacks, s.ticks[t].rows.Keys);
    forall r | r in s.db.outbox
      ensures HandoverOk(s.ticks - {t}, s.db.outbox[r], r, Handovers(s.events, r), Rollbacks(rollbacks', r))
    {
      HandedByHolder(s, t, r);
      assert HandoverOk(s.ticks, s.db.outbox[r], r, Handovers(s.events, r), Rollbacks(s.past.rollbacks, r));
      assert r in s.ticks[t].rows ==> TickOk(s.ticks[t], s.db.outbox, s.clock) && s.db.outbox[r].status != OutSent;
    }
  }

  lemma HandoverAfterOpen(s: State, t: nat, step: RelayStep)
    requires step.Begin? || step.LockDue?
    requires CanRelay(s, t, step) && HandoverInv(s.ticks, s.db.outbox, s.events, s.past.rollbacks)
    ensures HandoverInv(DoRelay(s, t, step).ticks, s.db.outbox, s.events, s.past.rollbacks)
  {
    var ticks' := DoRelay(s, t, step).ticks;
    forall r | r in s.db.outbox
      ensures HandoverOk(ticks', s.db.outbox[r], r, Handovers(s.events, r), Rollbacks(s.past.rollbacks, r))
    {
      SameHandled(s.ticks, ticks', t, r);
      assert HandoverOk(s.ticks, s.db.outbox[r], r, Handovers(s.events, r), Rollbacks(s.past.rollbacks, r));
    }
  }

  lemma HandoverAfterRelay(s: State, t: nat, step: RelayStep)
    requires TickInv(s.ticks, s.db.outbox, s.clock) && CanRelay(s, t, step)
    requires HandoverInv(s.ticks, s.db.outbox, s.events, s.past.rollbacks)
    ensures var s' := DoRelay(s, t, step); HandoverInv(s'.ticks, s'.db.outbox, s'.events, s'.past.rollbacks)
  {
    if step.Handle? {
      HandoverAfterHandle(s, t, step.row, step.ok);
    } else if step.CommitTick? {
      HandoverAfterCommit(s, t);
    } else if step.Rollback? {
      HandoverAfterRollback(s, t);
    } else {
      HandoverAfterOpen(s, t, step);
    }
  }

  lemma SameHandled(ticks: map<nat, Tick>, ticks': map<nat, Tick>, t: nat, r: nat)
    requires t in ticks' && ticks' == ticks[t := ticks'[t]]
    requires ticks'[t].handled == if t in ticks then ticks[t].handled else map[]
    ensures HandedOpen(ticks', r) <==> HandedOpen(ticks, r)
  {
    if HandedOpen(ticks, r) {
      var x :| x in ticks && r in ticks[x].handled && ticks[x].handled[r] == Handed;
      assert x in ticks' && r in ticks'[x].handled && ticks'[x].handled[r] == Handed;
    }
  }

  lemma EventsNewRow(events: seq<Event>, outbox: map<nat, OutboxRow>, row: nat, o: OutboxRow)
    requires EventsMatch(events, outbox) && row !in outbox
    ensures EventsMatch(events, outbox[row := o]) && Handovers(events, row) == 0
  {
    NoHandovers(events, outbox, row);
  }

  lemma NotHandedOpen(ticks: map<nat, Tick>, outbox: map<nat, OutboxRow>, clock: Millis, row: nat)
    requires TickInv(ticks, outbox, clock) && row !in outbox
    ensures !HandedOpen(ticks, row)
  {
    assert forall t :: t in ticks ==> TickOk(ticks[t], outbox, clock);
  }

  /** A row no tick has seen joins the outbox. */
  lemma HandoverNewRow(s: State, row: nat, o: OutboxRow)
    requires TickInv(s.ticks, s.db.outbox, s.clock) && HandoverInv(s.ticks, s.db.outbox, s.events, s.past.rollbacks)
    requires row !in s.db.outbox && o.status == OutPending
    ensures HandoverInv(s.ticks, s.db.outbox[row := o], s.events, s.past.rollbacks)
  {
    EventsNewRow(s.events, s.db.outbox, row, o);
    NotHandedOpen(s.ticks, s.db.outbox, s.clock, row);
    var outbox' := s.db.outbox[row := o];
    forall r | r in outbox'
      ensures HandoverOk(s.ticks, outbox'[r], r, Handovers(s.events, r), Rollbacks(s.past.rollbacks, r))
    {
      assert r != row ==> outbox'[r] == s.db.outbox[r];
    }
  }

  lemma {:induction false} NoHandovers(events: seq<Event>, outbox: map<nat, OutboxRow>, row: nat)
    requires row !in outbox && forall i :: 0 <= i < |events| ==> events[i].row in outbox
    ensures Handovers(events, row) == 0
  {
    if events != [] { NoHandovers(events[..|events| - 1], outbox, row); }
  }

  // ---- retry spacing ----

  /** Sum of the first n delays. */
  function TotalBackoff(n: nat): nat {
    if n == 0 then 0 else TotalBackoff(n - 1) + Backoff(n)
  }

  ghost predicate SpacingOk(row: OutboxRow, r: nat, firstFailure: map<nat, Millis>) {
    && (row.status == OutPending ==> row.attempts == 0)
    && (row.status == OutFailed ==> row.attempts >= 1)
    && (row.attempts >= 1 ==> r in firstFailure)
    && (row.status == OutFailed ==>
          row.nextAttemptAt.Some? && row.nextAttemptAt.value >= firstFailure[r] + TotalBackoff(row.attempts))
  }

  ghost predicate SpacingInv(outbox: map<nat, OutboxRow>, firstFailure: map<nat, Millis>) {
    forall r :: r in outbox ==> SpacingOk(outbox[r], r, firstFailure)
  }

  /** One handled row: the failure is read off the clock after the row fell due. */
  lemma SpacingRow(row: OutboxRow, h: Handling, asOf: Millis, r: nat, first: map<nat, Millis>, first': map<nat, Millis>)
    requires SpacingOk(row, r, first) && Due(row, asOf) && (h.FailedAt? ==> asOf <= h.at)
    requires row.attempts >= 1 ==> r in first' && first'[r] == first[r]
    requires row.attempts == 0 && h.FailedAt? ==> r in first' && first'[r] == h.at
    ensures SpacingOk(HandleRow(row, h), r, first')
  {
    assert TotalBackoff(row.attempts + 1) == TotalBackoff(row.attempts) + Backoff(row.attempts + 1);
  }

  lemma SpacingOfTick(tick: Tick, outbox: map<nat, OutboxRow>, clock: Millis, r: nat, first: map<nat, Millis>)
    requires TickOk(tick, outbox, clock) && tick.handled.Keys == tick.rows.Keys
    requires r in outbox && SpacingOk(outbox[r], r, first)
    ensures SpacingOk((outbox + tick.rows)[r], r, first + FirstFailures(tick))
  {
    if r in tick.rows {
      assert r in tick.handled;
      SpacingRow(outbox[r], tick.handled[r], tick.asOf, r, first, first + FirstFailures(tick));
    }
  }

  lemma SpacingAfterCommit(s: State, t: nat)
    requires TickInv(s.ticks, s.db.outbox, s.clock) && CanRelay(s, t, CommitTick)
    requires SpacingInv(s.db.outbox, s.past.firstFailure)
    ensures var s' := DoRelay(s, t, CommitTick); SpacingInv(s'.db.outbox, s'.past.firstFailure)
  {
    var tick := s.ticks[t];
    assert TickOk(tick, s.db.outbox, s.clock);
    forall r | r in s.db.outbox
      ensures SpacingOk((s.db.outbox + tick.rows)[r], r, s.past.firstFailure + FirstFailures(tick))
    {
      SpacingOfTick(tick, s.db.outbox, s.clock, r, s.past.firstFailure);
    }
  }
}
