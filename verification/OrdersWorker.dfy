/** The queue consumer's handler as straight-line code over the database and the broker.
    Each method also shows the machine labels it amounts to, so what holds along every
    run holds across its calls. */
module OrdersWorker {
  import opened Basics
  import opened Tables
  import opened Pipeline

  const RETRY_DELAY_MS := 1000

  /** Whether the channel is open while a delivery is handled; once closed it can neither
      publish nor ack. */
  datatype Channel = Open | ClosesBeforePublish | ClosesBeforeAck

  /** The copies once delivery c is settled: gone, or left in a place, and followed by the
      next attempt when it was forwarded with attempts to spare. */
  function Settled(copies: map<nat, Copy>, c: nat, retry: nat, forwarded: bool, left: Option<Place>): map<nat, Copy>
    requires c in copies
  {
    var msg := copies[c].msg;
    var rest := match left case None => copies - {c} case Some(place) => Move(copies, c, place);
    if forwarded && msg.attempt < MAX_ATTEMPTS then rest[retry := Fresh(msg.(attempt := msg.attempt + 1))] else rest
  }

  /** The copies after a delivery: it is gone, or queued again as it was; and beside it, when it
      was forwarded below three attempts, the same message with the next attempt. */
  lemma SettledExactly(copies: map<nat, Copy>, c: nat, retry: nat, forwarded: bool, gone: bool)
    requires c in copies && copies[c].attached
    ensures var msg := copies[c].msg;
            var back := if gone then copies - {c} else (copies - {c})[c := Copy(msg, Queued, true)];
            Settled(copies, c, retry, forwarded, if gone then None else Some(Queued))
            == if forwarded && msg.attempt < 3
               then back[retry := Copy(Msg(msg.id, msg.orderId, msg.attempt + 1, msg.alwaysFail), Queued, true)]
               else back
  {
    assert (copies - {c})[c := Copy(copies[c].msg, Queued, true)] == Move(copies, c, Queued);
  }

  lemma RetryDelay(attempt: int)
    requires 1 <= attempt < MAX_ATTEMPTS
    ensures RETRY_DELAY_MS * Pow2(attempt - 1) == if attempt == 2 then 2000 else 1000
  {
    assert Pow2(0) == 1 && Pow2(1) == 2;
  }

  lemma SettledFrom(copies: map<nat, Copy>, c: nat, retry: nat, place: Place)
    requires c in copies && retry !in copies
    ensures var moved := Settled(Move(copies, c, place), c, retry, true, Some(Forwarded));
            && moved == Settled(copies, c, retry, true, Some(Forwarded))
            && moved - {c} == Settled(copies, c, retry, true, None)
    ensures Move(copies, c, place) - {c} == copies - {c}
  {
  }

  function AfterProcessed(past: History, copy: Copy, row: nat, at: Times): History {
    past.(log := past.log + [ProcessedMessage(copy.msg.id, copy.msg.orderId, row, at)],
          rowOf := past.rowOf[copy.msg.id := row],
          doubled := past.doubled || !copy.attached)
  }

  lemma DedupInserted(s: State, c: nat)
    requires c in s.copies && s.copies[c].place == Fetched && !DedupWaits(s.copies, s.copies[c].msg.id)
    requires s.copies[c].msg.id !in s.db.processed
    ensures CanRun(s, [Work(c, InsertDedup)])
    ensures Run(s, [Work(c, InsertDedup)]) == s.(copies := Move(s.copies, c, InTx))
  {
    RunOne(s, Work(c, InsertDedup));
  }

  lemma ThrowsRun(s: State, c: nat)
    requires c in s.copies && s.copies[c].place == Fetched && !DedupWaits(s.copies, s.copies[c].msg.id)
    requires s.copies[c].msg.id !in s.db.processed
    ensures CanRun(s, [Work(c, InsertDedup)] + [Work(c, Throw)])
    ensures Run(s, [Work(c, InsertDedup)] + [Work(c, Throw)]) == s.(copies := Move(s.copies, c, Failed))
  {
    DedupInserted(s, c);
    var open, after := s.(copies := Move(s.copies, c, InTx)), s.(copies := Move(s.copies, c, Failed));
    Extend(s, [Work(c, InsertDedup)], open, Work(c, Throw), after);
  }

  lemma CommitsRun(s: State, c: nat, row: nat, at: Times)
    requires c in s.copies && s.copies[c].place == Fetched && !DedupWaits(s.copies, s.copies[c].msg.id)
    requires s.copies[c].msg.id !in s.db.processed && !s.copies[c].msg.alwaysFail
    requires s.copies[c].msg.orderId in s.db.orders && row !in s.db.outbox && Past(at, s.clock)
    ensures var steps, msg := [Work(c, InsertDedup)] + [Work(c, CommitProcessed(row, at))], s.copies[c].msg;
            && CanRun(s, steps)
            && Run(s, steps) == s.(db := ApplyProcess(s.db, msg.id, msg.orderId, row, at),
                                   copies := Move(s.copies, c, Done),
                                   past := AfterProcessed(s.past, s.copies[c], row, at))
  {
    DedupInserted(s, c);
    var open := s.(copies := Move(s.copies, c, InTx));
    var step := Work(c, CommitProcessed(row, at));
    Extend(s, [Work(c, InsertDedup)], open, step, Step(open, step));
  }

  class OrdersWorker {
    var sys: State

    /** The transaction commits the message's effect on these tables. */
    ghost predicate Processes(msg: Msg, throws: bool)
      reads this
    {
      msg.id !in sys.db.processed && !throws && !msg.alwaysFail && msg.orderId in sys.db.orders
    }

    /** ok is false when it throws. Its channel may be gone by now. The dedup insert has
        already waited for any other open transaction on the same message. */
    method ProcessFromQueue(c: nat, throws: bool, row: nat, at: Times) returns (ok: bool, ghost steps: seq<Label>)
      requires c in sys.copies && sys.copies[c].place == Fetched && !DedupWaits(sys.copies, sys.copies[c].msg.id)
      requires row !in sys.db.outbox && Past(at, sys.clock)
      modifies this
      ensures CanRun(old(sys), steps) && Run(old(sys), steps) == sys
      ensures var msg := old(sys).copies[c].msg;
              && (ok <==> msg.id in old(sys).db.processed || old(Processes(msg, throws)))
              && sys.db == (if old(Processes(msg, throws))
                            then ApplyProcess(old(sys).db, msg.id, msg.orderId, row, at)
                            else old(sys).db)
              && sys.copies == Move(old(sys).copies, c, if ok then Done else Failed)
              && sys.dead == old(sys).dead
      ensures var msg, db := old(sys).copies[c].msg, old(sys).db;
              var effect := msg.id !in db.processed && !throws && !msg.alwaysFail && msg.orderId in db.orders;
              && (ok <==> msg.id in db.processed || effect)
              && (!effect ==> sys.db == db)
              && (effect ==>
                    && sys.db.processed == db.processed + {msg.id}
                    && sys.db.orders == db.orders[msg.orderId := db.orders[msg.orderId].(
                                                    status := Status.Processed, processedAt := Some(at.processed))]
                    && sys.db.outbox
                       == db.outbox[row := OutboxRow(msg.orderId, at.created, OutPending, 0, Some(at.due))]
                    && sys.db.stocks == db.stocks && sys.db.items == db.items)
    {
      var msg := sys.copies[c].msg;
      ghost var s0 := sys;
      if msg.id in sys.db.processed {
        sys := sys.(copies := Move(sys.copies, c, Done));
        steps := [Work(c, InsertDedup)];
        RunOne(s0, steps[0]);
        return true, steps;
      }
      if throws || msg.alwaysFail || msg.orderId !in sys.db.orders {
        // the transaction rolls the dedup row back
        sys := sys.(copies := Move(sys.copies, c, Failed));
        ThrowsRun(s0, c);
        return false, [Work(c, InsertDedup)] + [Work(c, Throw)];
      }
      var db := ApplyProcess(sys.db, msg.id, msg.orderId, row, at);
      sys := sys.(db := db, copies := Move(sys.copies, c, Done),
                  past := AfterProcessed(sys.past, sys.copies[c], row, at));
      CommitsRun(s0, c, row, at);
      return true, [Work(c, InsertDedup)] + [Work(c, CommitProcessed(row, at))];
    }

    ghost predicate Succeeds(msg: Msg, throws: bool)
      reads this
    {
      msg.id in sys.db.processed || Processes(msg, throws)
    }

    /** Process, then retry or dead-letter on failure, then ack. It throws when the channel
        is closed where it publishes or acks; a failed ack after success is caught like a
        processing error, and the publish that follows then throws. */
    method HandleMessage(c: nat, throws: bool, row: nat, at: Times, retry: nat, channel: Channel)
      returns (thrown: bool, delayMs: nat, ghost steps: seq<Label>)
      requires c in sys.copies && sys.copies[c].place == Fetched && sys.copies[c].attached
      requires !DedupWaits(sys.copies, sys.copies[c].msg.id) && sys.copies[c].msg.attempt >= 1
      requires row !in sys.db.outbox && Past(at, sys.clock) && retry !in sys.copies
      modifies this
      ensures CanRun(old(sys), steps) && Run(old(sys), steps) == sys
      ensures var msg, success := old(sys).copies[c].msg, old(Succeeds(sys.copies[c].msg, throws));
              var forwarded := !success && channel != ClosesBeforePublish;
              && (thrown <==> channel != Open)
              && sys.db == (if old(Processes(msg, throws))
                            then ApplyProcess(old(sys).db, msg.id, msg.orderId, row, at)
                            else old(sys).db)
              && sys.dead == (if forwarded && msg.attempt >= 3 then old(sys).dead + [msg] else old(sys).dead)
              && sys.copies == Settled(old(sys).copies, c, retry, forwarded,
                                       if !thrown then None
                                       else Some(if success then Done else if forwarded then Forwarded else Failed))
              && delayMs == if msg.attempt >= 3 || (success && !thrown) then 0
                            else if msg.attempt == 2 then 2000 else 1000
    {
      ghost var s0 := sys;
      var msg := sys.copies[c].msg;
      var ok;
      ok, steps := ProcessFromQueue(c, throws, row, at);
      thrown, delayMs := false, 0;
      SettledFrom(s0.copies, c, retry, if ok then Done else Failed);
      if ok && channel == Open {
        steps := Ack(s0, steps, c);
        return;
      }
      if msg.attempt < MAX_ATTEMPTS {
        RetryDelay(msg.attempt);
        delayMs := RETRY_DELAY_MS * Pow2(msg.attempt - 1);
      }
      if ok || channel == ClosesBeforePublish { return true, delayMs, steps; }
      steps := Forward(s0, steps, c, retry);
      if channel == ClosesBeforeAck { return true, delayMs, steps; }
      steps := Ack(s0, steps, c);
    }

    /** The next attempt is queued, or the message is dead-lettered. */
    method Forward(ghost s0: State, ghost steps: seq<Label>, c: nat, retry: nat) returns (ghost steps': seq<Label>)
      requires c in sys.copies && sys.copies[c].place == Failed && sys.copies[c].attached && retry !in sys.copies
      requires CanRun(s0, steps) && Run(s0, steps) == sys
      modifies this
      ensures var msg := old(sys).copies[c].msg;
              sys == old(sys).(dead := if msg.attempt >= 3 then old(sys).dead + [msg] else old(sys).dead,
                               copies := Settled(old(sys).copies, c, retry, true, Some(Forwarded)))
      ensures CanRun(s0, steps') && Run(s0, steps') == sys
    {
      ghost var failed := sys;
      var msg := sys.copies[c].msg;
      if msg.attempt >= MAX_ATTEMPTS {
        sys := sys.(dead := sys.dead + [msg], copies := Move(sys.copies, c, Forwarded));
      } else {
        sys := sys.(copies := Move(sys.copies, c, Forwarded)[retry := Fresh(msg.(attempt := msg.attempt + 1))]);
      }
      Extend(s0, steps, failed, Work(c, WorkStep.Forward(retry)), sys);
      steps' := steps + [Work(c, WorkStep.Forward(retry))];
    }

    method Ack(ghost s0: State, ghost steps: seq<Label>, c: nat) returns (ghost steps': seq<Label>)
      requires c in sys.copies && sys.copies[c].attached
      requires sys.copies[c].place == Done || sys.copies[c].place == Forwarded
      requires CanRun(s0, steps) && Run(s0, steps) == sys
      modifies this
      ensures sys == old(sys).(copies := old(sys).copies - {c})
      ensures CanRun(s0, steps') && Run(s0, steps') == sys
    {
      ghost var before := sys;
      sys := sys.(copies := sys.copies - {c});
      Extend(s0, steps, before, Work(c, WorkStep.Ack), sys);
      steps' := steps + [Work(c, WorkStep.Ack)];
    }

    /** The consumer's wrapper: a handler that throws has its delivery put back, by the nack
        or by the broker when the channel is gone. Whatever fails, the message is processed,
        forwarded or queued again. */
    method Consume(c: nat, throws: bool, row: nat, at: Times, retry: nat, channel: Channel)
      returns (ghost steps: seq<Label>)
      requires c in sys.copies && sys.copies[c].place == Fetched && sys.copies[c].attached
      requires !DedupWaits(sys.copies, sys.copies[c].msg.id) && sys.copies[c].msg.attempt >= 1
      requires row !in sys.db.outbox && Past(at, sys.clock) && retry !in sys.copies
      modifies this
      ensures CanRun(old(sys), steps) && Run(old(sys), steps) == sys
      ensures var msg, success := old(sys).copies[c].msg, old(Succeeds(sys.copies[c].msg, throws));
              var forwarded := !success && channel != ClosesBeforePublish;
              && sys.db == (if old(Processes(msg, throws))
                            then ApplyProcess(old(sys).db, msg.id, msg.orderId, row, at)
                            else old(sys).db)
              && sys.dead == (if forwarded && msg.attempt >= 3 then old(sys).dead + [msg] else old(sys).dead)
              && sys.copies == Settled(old(sys).copies, c, retry, forwarded,
                                       if channel == Open then None else Some(Queued))
    {
      ghost var s0 := sys;
      var thrown, _, ran := HandleMessage(c, throws, row, at, retry, channel);
      steps := ran;
      if thrown {
        ghost var before := sys;
        sys := sys.(copies := Move(sys.copies, c, Queued), past := Redelivered(sys.past, sys.copies[c], Redeliver));
        Extend(s0, steps, before, Work(c, Redeliver), sys);
        steps := steps + [Work(c, Redeliver)];
      }
    }
  }
}
