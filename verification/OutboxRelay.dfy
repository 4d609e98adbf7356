/** `tick` as the relay runs it, its refinement of the machine's relay steps, and the
    draining of the outbox by successive ticks. */
module OutboxRelay {
  import opened Basics
  import opened Tables
  import opened Pipeline

  // ---- the query ----

  predicate DistinctRows(rows: seq<nat>) {
    forall i, j :: 0 <= i < j < |rows| ==> rows[i] != rows[j]
  }

  predicate ByAge(outbox: map<nat, OutboxRow>, rows: seq<nat>) {
    && (forall i :: 0 <= i < |rows| ==> rows[i] in outbox)
    && (forall i, j :: 0 <= i < j < |rows| ==> outbox[rows[i]].createdAt <= outbox[rows[j]].createdAt)
  }

  function DueRows(outbox: map<nat, OutboxRow>, asOf: Millis): set<nat> {
    set r | r in outbox && Due(outbox[r], asOf)
  }

  /** The oldest due rows, in order of age, at most limit of them. */
  ghost predicate OldestFirst(outbox: map<nat, OutboxRow>, due: set<nat>, batch: seq<nat>, limit: nat) {
    && DistinctRows(batch) && ByAge(outbox, batch)
    && (forall i :: 0 <= i < |batch| ==> batch[i] in due)
    && |batch| == (if |due| < limit then |due| else limit)
    && (forall r, i :: r in due && r !in batch && r in outbox && 0 <= i < |batch| ==>
          outbox[batch[i]].createdAt <= outbox[r].createdAt)
  }

  /** An answer to the tick's query over the given unlocked due rows. */
  ghost predicate IsBatch(outbox: map<nat, OutboxRow>, due: set<nat>, batch: seq<nat>) {
    OldestFirst(outbox, due, batch, BATCH)
  }

  // ---- one tick ----

  /** The handling of each row: published, or failed at the time the failure is noted. */
  function Results(publishes: seq<bool>, times: seq<Millis>): seq<Handling>
    requires |publishes| == |times|
  {
    seq(|publishes|, i requires 0 <= i < |publishes| => if publishes[i] then Handed else FailedAt(times[i]))
  }

  function Assign(rows: seq<nat>, results: seq<Handling>): map<nat, Handling>
    requires |rows| == |results|
  {
    if rows == [] then map[]
    else
      var n := |rows| - 1;
      Assign(rows[..n], results[..n])[rows[n] := results[n]]
  }

  function EventsOf(outbox: map<nat, OutboxRow>, rows: seq<nat>, publishes: seq<bool>): seq<Event>
    requires |rows| == |publishes| && forall i :: 0 <= i < |rows| ==> rows[i] in outbox
  {
    if rows == [] then []
    else
      var n := |rows| - 1;
      var m := outbox[rows[n]];
      EventsOf(outbox, rows[..n], publishes[..n])
      + if publishes[n] then [Event(rows[n], m.orderId, m.createdAt)] else []
  }

  lemma {:induction false} AssignKeys(rows: seq<nat>, results: seq<Handling>)
    requires |rows| == |results|
    ensures forall r :: r in Assign(rows, results) <==> r in rows
  {
    if rows != [] {
      var n := |rows| - 1;
      AssignKeys(rows[..n], results[..n]);
      assert rows == rows[..n] + [rows[n]];
    }
  }

  lemma {:induction false} AssignAt(rows: seq<nat>, results: seq<Handling>)
    requires |rows| == |results| && DistinctRows(rows)
    ensures forall r :: r in Assign(rows, results) <==> r in rows
    ensures forall i :: 0 <= i < |rows| ==>
              rows[i] in Assign(rows, results) && Assign(rows, results)[rows[i]] == results[i]
  {
    AssignKeys(rows, results);
    if rows != [] {
      var n := |rows| - 1;
      AssignAt(rows[..n], results[..n]);
      forall i | 0 <= i < |rows|
        ensures rows[i] in Assign(rows, results) && Assign(rows, results)[rows[i]] == results[i]
      {
        if i < n { assert rows[..n][i] == rows[i] && results[..n][i] == results[i] && rows[i] != rows[n]; }
      }
    }
  }

  lemma {:induction false} EventsAppend(outbox: map<nat, OutboxRow>, rows: seq<nat>, publishes: seq<bool>,
                                        more: seq<nat>, also: seq<bool>)
    requires |rows| == |publishes| && forall i :: 0 <= i < |rows| ==> rows[i] in outbox
    requires |more| == |also| && forall i :: 0 <= i < |more| ==> more[i] in outbox
    ensures EventsOf(outbox, rows + more, publishes + also)
            == EventsOf(outbox, rows, publishes) + EventsOf(outbox, more, also)
  {
    if more == [] {
      assert rows + more == rows && publishes + also == publishes;
    } else {
      var n := |more| - 1;
      EventsAppend(outbox, rows, publishes, more[..n], also[..n]);
      assert (rows + more)[..|rows| + n] == rows + more[..n];
      assert (publishes + also)[..|rows| + n] == publishes + also[..n];
    }
  }

  /** The events of the published rows, in order, and of no others: none for no rows, one for a
      published row, and piecewise for the rest. */
  lemma EventsExactly(outbox: map<nat, OutboxRow>, r: nat, p: bool, rows: seq<nat>, publishes: seq<bool>)
    requires |rows| == |publishes| && r in outbox && forall i :: 0 <= i < |rows| ==> rows[i] in outbox
    ensures EventsOf(outbox, [], []) == []
    ensures EventsOf(outbox, rows + [r], publishes + [p])
            == EventsOf(outbox, rows, publishes)
               + if p then [Event(r, outbox[r].orderId, outbox[r].createdAt)] else []
    ensures EventsOf(outbox, [r] + rows, [p] + publishes)
            == (if p then [Event(r, outbox[r].orderId, outbox[r].createdAt)] else [])
               + EventsOf(outbox, rows, publishes)
  {
    assert (rows + [r])[..|rows|] == rows && (publishes + [p])[..|rows|] == publishes;
    EventsAppend(outbox, [r], [p], rows, publishes);
    assert [r][..0] == [] && [p][..0] == [];
  }

  /** What a committed tick leaves of the outbox, row by row. */
  lemma TickRows(before: map<nat, OutboxRow>, batch: seq<nat>, publishes: seq<bool>, times: seq<Millis>)
    requires |publishes| == |times| == |batch| && DistinctRows(batch)
    requires forall i :: 0 <= i < |batch| ==> batch[i] in before
    ensures var after := HandleRows(before, Assign(batch, Results(publishes, times)));
            && after.Keys == before.Keys
            && (forall r :: r in after && r !in batch ==> after[r] == before[r])
            && forall i :: 0 <= i < |batch| ==>
                 RowHandled(before[batch[i]], after[batch[i]], publishes[i], times[i])
  {
    AssignAt(batch, Results(publishes, times));
  }

  predicate RowHandled(before: OutboxRow, after: OutboxRow, published: bool, time: Millis) {
    && after.orderId == before.orderId && after.createdAt == before.createdAt
    && (published ==> after.status == OutSent && after.nextAttemptAt == None && after.attempts == before.attempts)
    && (!published ==>
          && after.status == OutFailed && after.attempts == before.attempts + 1
          && after.nextAttemptAt == Some(time + Backoff(after.attempts)))
  }

  function Load(outbox: map<nat, OutboxRow>, rows: seq<nat>): map<nat, OutboxRow> {
    map r | r in rows && r in outbox :: outbox[r]
  }

  function WithTick(s: State, t: nat, tick: Tick): State {
    s.(ticks := s.ticks[t := tick])
  }

  lemma LockNext(s: State, t: nat, asOf: Millis, rows: map<nat, OutboxRow>, row: nat)
    requires t !in s.ticks && |rows| < BATCH && row !in rows
    requires row in s.db.outbox && Due(s.db.outbox[row], asOf) && !HeldByTick(s.ticks, row)
    ensures var s1 := WithTick(s, t, Tick(asOf, rows, map[]));
            Enabled(s1, Relay(t, LockDue(row))) &&
            Step(s1, Relay(t, LockDue(row))) == WithTick(s, t, Tick(asOf, rows[row := s.db.outbox[row]], map[]))
  {
    var s1 := WithTick(s, t, Tick(asOf, rows, map[]));
    forall x | x in s1.ticks
      ensures row !in s1.ticks[x].rows
    {
    }
  }

  function LockSteps(t: nat, asOf: Millis, batch: seq<nat>): seq<Label> {
    if batch == [] then [Relay(t, Begin(asOf))]
    else LockSteps(t, asOf, batch[..|batch| - 1]) + [Relay(t, LockDue(batch[|batch| - 1]))]
  }

  lemma LockExtend(s: State, t: nat, asOf: Millis, front: seq<nat>, row: nat)
    requires t !in s.ticks && |front| < BATCH && row !in front
    requires row in s.db.outbox && Due(s.db.outbox[row], asOf) && !HeldByTick(s.ticks, row)
    requires CanRun(s, LockSteps(t, asOf, front))
    requires Run(s, LockSteps(t, asOf, front)) == WithTick(s, t, Tick(asOf, Load(s.db.outbox, front), map[]))
    ensures CanRun(s, LockSteps(t, asOf, front) + [Relay(t, LockDue(row))])
    ensures Run(s, LockSteps(t, asOf, front) + [Relay(t, LockDue(row))])
            == WithTick(s, t, Tick(asOf, Load(s.db.outbox, front + [row]), map[]))
  {
    var rows := Load(s.db.outbox, front);
    LoadSize(s.db.outbox, front);
    LockNext(s, t, asOf, rows, row);
    assert Load(s.db.outbox, front + [row]) == rows[row := s.db.outbox[row]];
    var before := WithTick(s, t, Tick(asOf, rows, map[]));
    Extend(s, LockSteps(t, asOf, front), before, Relay(t, LockDue(row)), Step(before, Relay(t, LockDue(row))));
  }

  /** Opening the tick and locking the rows one by one is a run of the machine. */
  lemma {:induction false} LockRows(s: State, t: nat, asOf: Millis, batch: seq<nat>)
    requires t !in s.ticks && asOf <= s.clock && |batch| <= BATCH && DistinctRows(batch)
    requires forall i :: 0 <= i < |batch| ==>
      batch[i] in s.db.outbox && Due(s.db.outbox[batch[i]], asOf) && !HeldByTick(s.ticks, batch[i])
    ensures CanRun(s, LockSteps(t, asOf, batch))
    ensures Run(s, LockSteps(t, asOf, batch)) == WithTick(s, t, Tick(asOf, Load(s.db.outbox, batch), map[]))
  {
    if batch == [] {
      RunOne(s, Relay(t, Begin(asOf)));
      assert Load(s.db.outbox, batch) == map[];
    } else {
      var front, row := batch[..|batch| - 1], batch[|batch| - 1];
      LockRows(s, t, asOf, front);
      LockExtend(s, t, asOf, front, row);
      assert batch == front + [row];
    }
  }

  lemma {:induction false} LoadSize(outbox: map<nat, OutboxRow>, rows: seq<nat>)
    ensures |Load(outbox, rows)| <= |rows|
  {
    if rows == [] {
      assert Load(outbox, rows) == map[];
    } else {
      var n := |rows| - 1;
      LoadSize(outbox, rows[..n]);
      assert rows == rows[..n] + [rows[n]];
      assert Load(outbox, rows).Keys <= Load(outbox, rows[..n]).Keys + {rows[n]};
      SubsetSize(Load(outbox, rows).Keys, Load(outbox, rows[..n]).Keys + {rows[n]});
    }
  }

  lemma {:induction false} SubsetSize<A>(s: set<A>, t: set<A>)
    requires s <= t
    ensures |s| <= |t|
  {
    if s != {} {
      var a :| a in s;
      SubsetSize(s - {a}, t - {a});
    }
  }

  // ---- handling the locked rows ----

  /** The loaded rows once the first k are handled. */
  function RowsAfter(outbox: map<nat, OutboxRow>, batch: seq<nat>, results: seq<Handling>, k: nat): map<nat, OutboxRow>
    requires |batch| == |results| && k <= |batch|
  {
    HandleRows(Load(outbox, batch), Assign(batch[..k], results[..k]))
  }

  /** The tick after its first k rows. */
  function Progress(outbox: map<nat, OutboxRow>, asOf: Millis, batch: seq<nat>, results: seq<Handling>, k: nat): Tick
    requires |batch| == |results| && k <= |batch|
  {
    Tick(asOf, RowsAfter(outbox, batch, results, k), Assign(batch[..k], results[..k]))
  }

  lemma RowsStart(outbox: map<nat, OutboxRow>, batch: seq<nat>, results: seq<Handling>)
    requires |batch| == |results|
    ensures RowsAfter(outbox, batch, results, 0) == Load(outbox, batch)
  {
    assert HandleRows(Load(outbox, batch), map[]) == Load(outbox, batch);
  }

  lemma AssignNext(rows: seq<nat>, results: seq<Handling>, k: nat)
    requires |rows| == |results| && k < |rows| && DistinctRows(rows)
    ensures rows[k] !in Assign(rows[..k], results[..k])
    ensures Assign(rows[..k + 1], results[..k + 1]) == Assign(rows[..k], results[..k])[rows[k] := results[k]]
  {
    AssignKeys(rows[..k], results[..k]);
    assert rows[..k + 1][..k] == rows[..k] && results[..k + 1][..k] == results[..k];
  }

  lemma HandleOneMore(rows: map<nat, OutboxRow>, handled: map<nat, Handling>, r: nat, h: Handling)
    requires r in rows && r !in handled
    ensures HandleRows(rows, handled)[r] == rows[r]
    ensures HandleRows(rows, handled[r := h]) == HandleRows(rows, handled)[r := HandleRow(rows[r], h)]
  {
  }

  lemma RowsNext(outbox: map<nat, OutboxRow>, batch: seq<nat>, results: seq<Handling>, k: nat)
    requires |batch| == |results| && k < |batch| && DistinctRows(batch)
    requires batch[k] in outbox
    ensures var rows := RowsAfter(outbox, batch, results, k);
            && batch[k] in rows && rows[batch[k]] == outbox[batch[k]]
            && RowsAfter(outbox, batch, results, k + 1) == rows[batch[k] := HandleRow(outbox[batch[k]], results[k])]
  {
    AssignNext(batch, results, k);
    HandleOneMore(Load(outbox, batch), Assign(batch[..k], results[..k]), batch[k], results[k]);
  }

  lemma RowsEnd(outbox: map<nat, OutboxRow>, batch: seq<nat>, results: seq<Handling>)
    requires |batch| == |results| && forall i :: 0 <= i < |batch| ==> batch[i] in outbox
    ensures var rows := RowsAfter(outbox, batch, results, |batch|);
            && Assign(batch[..|batch|], results[..|batch|]).Keys == rows.Keys
            && outbox + rows == HandleRows(outbox, Assign(batch, results))
  {
    AssignKeys(batch, results);
    assert batch[..|batch|] == batch && results[..|batch|] == results;
    var rows := RowsAfter(outbox, batch, results, |batch|);
    forall r | r in outbox
      ensures (outbox + rows)[r] == HandleRows(outbox, Assign(batch, results))[r]
    {
    }
  }

  lemma EventsNext(outbox: map<nat, OutboxRow>, batch: seq<nat>, publishes: seq<bool>, k: nat)
    requires |batch| == |publishes| && k < |batch| && forall i :: 0 <= i < |batch| ==> batch[i] in outbox
    ensures EventsOf(outbox, batch[..k + 1], publishes[..k + 1])
            == EventsOf(outbox, batch[..k], publishes[..k])
               + if publishes[k] then [Event(batch[k], outbox[batch[k]].orderId, outbox[batch[k]].createdAt)] else []
  {
    assert batch[..k + 1][..k] == batch[..k] && publishes[..k + 1][..k] == publishes[..k];
  }

  class OutboxRelay {
    var outbox: map<nat, OutboxRow>
    var events: seq<Event>           // handed to domain.events

    constructor (outbox: map<nat, OutboxRow>)
      ensures this.outbox == outbox && events == []
    {
      this.outbox, events := outbox, [];
    }

    /** One row: its event is handed over and it becomes SENT, or the attempt is counted and
        the next one set off by the backoff. */
    method Attempt(row: nat, before: OutboxRow, published: bool, time: Millis) returns (m: OutboxRow)
      modifies `events
      ensures m == HandleRow(before, if published then Handed else FailedAt(time))
      ensures events == old(events) + if published then [Event(row, before.orderId, before.createdAt)] else []
    {
      m := before;
      if published {
        events := events + [Event(row, m.orderId, m.createdAt)];
        m := m.(status := OutSent, nextAttemptAt := None);
      } else {
        m := m.(status := OutFailed, attempts := m.attempts + 1);
        m := m.(nextAttemptAt := Some(time + Backoff(m.attempts)));
      }
    }

    /** Rows handled in order up to the first failed save: a failed save aborts the
        transaction, so saving FAILED in its place fails as well and the loop throws. */
    method HandleBatch(batch: seq<nat>, publishes: seq<bool>, times: seq<Millis>, saveFails: Option<nat>)
      returns (threw: bool, rows: map<nat, OutboxRow>)
      requires |publishes| == |times| == |batch| && DistinctRows(batch)
      requires forall i :: 0 <= i < |batch| ==> batch[i] in outbox
      modifies `events
      ensures threw <==> saveFails.Some? && saveFails.value < |batch|
      ensures !threw ==> rows == RowsAfter(outbox, batch, Results(publishes, times), |batch|)
      ensures var n := if threw then saveFails.value + 1 else |batch|;
              events == old(events) + EventsOf(outbox, batch[..n], publishes[..n])
    {
      ghost var results := Results(publishes, times);
      rows := Load(outbox, batch);
      RowsStart(outbox, batch, results);
      var i := 0;
      while i < |batch|
        invariant i <= |batch|
        invariant saveFails.Some? && saveFails.value < |batch| ==> i <= saveFails.value
        invariant rows == RowsAfter(outbox, batch, results, i)
        invariant events == old(events) + EventsOf(outbox, batch[..i], publishes[..i])
      {
        RowsNext(outbox, batch, results, i);
        EventsNext(outbox, batch, publishes, i);
        var m := Attempt(batch[i], rows[batch[i]], publishes[i], times[i]);
        assert events == old(events) + EventsOf(outbox, batch[..i + 1], publishes[..i + 1]);
        if saveFails == Some(i) { return true, rows; }
        rows := rows[batch[i] := m];
        i := i + 1;
      }
      return false, rows;
    }

    /** The transaction around the loop. batch is the query's answer; publishes, times and
        saveFails are what the broker, the clock and the database do while its rows are
        handled. What a rolled-back tick handed over stays handed over. */
    method Tick(batch: seq<nat>, publishes: seq<bool>, times: seq<Millis>, saveFails: Option<nat>)
    returns (committed: bool)
      requires |publishes| == |times| == |batch| && DistinctRows(batch)
      requires forall i :: 0 <= i < |batch| ==> batch[i] in outbox
      modifies this
      ensures committed <==> saveFails.None? || saveFails.value >= |batch|
      ensures outbox == if committed then HandleRows(old(outbox), Assign(batch, Results(publishes, times)))
                        else old(outbox)
      ensures var n := if committed then |batch| else saveFails.value + 1;
              events == old(events) + EventsOf(old(outbox), batch[..n], publishes[..n])
      // row by row
      ensures outbox.Keys == old(outbox).Keys
      ensures forall r :: r in outbox && (r !in batch || !committed) ==> outbox[r] == old(outbox)[r]
      ensures committed ==> forall i :: 0 <= i < |batch| ==>
        RowHandled(old(outbox)[batch[i]], outbox[batch[i]], publishes[i], times[i])
    {
      TickRows(outbox, batch, publishes, times);
      var threw, rows := HandleBatch(batch, publishes, times, saveFails);
      if threw { return false; }
      RowsEnd(outbox, batch, Results(publishes, times));
      outbox := outbox + rows;
      return true;
    }
  }

  // ---- the tick as a run of the machine ----

  /** The base state with the clock, the events and tick t of a tick under way. */
  function Midway(s: State, t: nat, time: Millis, events: seq<Event>, tick: Tick): State {
    s.(clock := time, events := events, ticks := s.ticks[t := tick])
  }

  /** The state after the first k rows of the tick. */
  function AfterRows(s: State, t: nat, asOf: Millis, batch: seq<nat>, publishes: seq<bool>, times: seq<Millis>,
                     k: nat): State
    requires |publishes| == |times| == |batch| && k <= |batch|
    requires forall i :: 0 <= i < |batch| ==> batch[i] in s.db.outbox
  {
    Midway(s, t, if k == 0 then s.clock else times[k - 1],
           s.events + EventsOf(s.db.outbox, batch[..k], publishes[..k]),
           Progress(s.db.outbox, asOf, batch, Results(publishes, times), k))
  }

  /** pre, then for each of the first k rows the passing of time and its handling. */
  function HandleSteps(pre: seq<Label>, t: nat, batch: seq<nat>, publishes: seq<bool>, times: seq<Millis>,
                       k: nat): seq<Label>
    requires |publishes| == |times| == |batch| && k <= |batch|
  {
    if k == 0 then pre
    else
      HandleSteps(pre, t, batch, publishes, times, k - 1) + [Pass(times[k - 1])]
      + [Relay(t, Handle(batch[k - 1], publishes[k - 1]))]
  }

  lemma HandleStep(s: State, t: nat, row: nat, ok: bool, time: Millis, events: seq<Event>, tick: Tick)
    requires row in tick.rows && row !in tick.handled
    ensures var m, h := tick.rows[row], if ok then Handed else FailedAt(time);
            var tick' := tick.(rows := tick.rows[row := HandleRow(m, h)], handled := tick.handled[row := h]);
            var events' := events + if ok then [Event(row, m.orderId, m.createdAt)] else [];
            var before := Midway(s, t, time, events, tick);
            && CanRelay(before, t, Handle(row, ok))
            && DoRelay(before, t, Handle(row, ok)) == Midway(s, t, time, events', tick')
  {
    var m, h := tick.rows[row], if ok then Handed else FailedAt(time);
    var tick' := tick.(rows := tick.rows[row := HandleRow(m, h)], handled := tick.handled[row := h]);
    assert s.ticks[t := tick][t := tick'] == s.ticks[t := tick'];
  }

  lemma HandleNext(s: State, t: nat, asOf: Millis, batch: seq<nat>, publishes: seq<bool>, times: seq<Millis>, k: nat)
    requires |publishes| == |times| == |batch| && k < |batch| && DistinctRows(batch)
    requires forall i :: 0 <= i < |batch| ==> batch[i] in s.db.outbox
    ensures var before := AfterRows(s, t, asOf, batch, publishes, times, k).(clock := times[k]);
            CanRelay(before, t, Handle(batch[k], publishes[k])) &&
            DoRelay(before, t, Handle(batch[k], publishes[k])) == AfterRows(s, t, asOf, batch, publishes, times, k + 1)
  {
    var results := Results(publishes, times);
    AssignNext(batch, results, k);
    RowsNext(s.db.outbox, batch, results, k);
    EventsNext(s.db.outbox, batch, publishes, k);
    HandleStep(s, t, batch[k], publishes[k], times[k], s.events + EventsOf(s.db.outbox, batch[..k], publishes[..k]),
               Progress(s.db.outbox, asOf, batch, results, k));
  }

  predicate Ascending(from: Millis, times: seq<Millis>) {
    && (forall i :: 0 <= i < |times| ==> from <= times[i])
    && (forall i, j :: 0 <= i < j < |times| ==> times[i] <= times[j])
  }

  lemma ExtendHandle(s0: State, ls: seq<Label>, before: State, time: Millis, t: nat, row: nat, ok: bool, after: State)
    requires CanRun(s0, ls) && Run(s0, ls) == before && before.clock <= time
    requires CanRelay(before.(clock := time), t, Handle(row, ok))
    requires DoRelay(before.(clock := time), t, Handle(row, ok)) == after
    ensures CanRun(s0, ls + [Pass(time)] + [Relay(t, Handle(row, ok))])
    ensures Run(s0, ls + [Pass(time)] + [Relay(t, Handle(row, ok))]) == after
  {
    Extend(s0, ls, before, Pass(time), before.(clock := time));
    Extend(s0, ls + [Pass(time)], before.(clock := time), Relay(t, Handle(row, ok)), after);
  }

  lemma HandleExtend(s0: State, ls: seq<Label>, s: State, t: nat, asOf: Millis,
                     batch: seq<nat>, publishes: seq<bool>, times: seq<Millis>, k: nat)
    requires |publishes| == |times| == |batch| && k < |batch| && DistinctRows(batch)
    requires forall i :: 0 <= i < |batch| ==> batch[i] in s.db.outbox
    requires AfterRows(s, t, asOf, batch, publishes, times, k).clock <= times[k]
    requires CanRun(s0, ls) && Run(s0, ls) == AfterRows(s, t, asOf, batch, publishes, times, k)
    ensures CanRun(s0, ls + [Pass(times[k])] + [Relay(t, Handle(batch[k], publishes[k]))])
    ensures Run(s0, ls + [Pass(times[k])] + [Relay(t, Handle(batch[k], publishes[k]))])
            == AfterRows(s, t, asOf, batch, publishes, times, k + 1)
  {
    HandleNext(s, t, asOf, batch, publishes, times, k);
    var before, after := Run(s0, ls), AfterRows(s, t, asOf, batch, publishes, times, k + 1);
    ExtendHandle(s0, ls, before, times[k], t, batch[k], publishes[k], after);
  }

  lemma {:induction false} HandleRun(s0: State, pre: seq<Label>, s: State, t: nat, asOf: Millis,
                                     batch: seq<nat>, publishes: seq<bool>, times: seq<Millis>, k: nat)
    requires |publishes| == |times| == |batch| && k <= |batch| && DistinctRows(batch)
    requires forall i :: 0 <= i < |batch| ==> batch[i] in s.db.outbox
    requires Ascending(s.clock, times)
    requires CanRun(s0, pre) && Run(s0, pre) == AfterRows(s, t, asOf, batch, publishes, times, 0)
    ensures CanRun(s0, HandleSteps(pre, t, batch, publishes, times, k))
    ensures Run(s0, HandleSteps(pre, t, batch, publishes, times, k)) ==
        AfterRows(s, t, asOf, batch, publishes, times, k)
  {
    if k > 0 {
      HandleRun(s0, pre, s, t, asOf, batch, publishes, times, k - 1);
      HandleExtend(s0, HandleSteps(pre, t, batch, publishes, times, k - 1), s, t, asOf, batch, publishes, times, k - 1);
    }
  }

  /** The tick, from the time it reads through its query and the handled rows to its commit or
      a rollback at any point, is a run of the machine, and that run changes the outbox and
      the events as `Tick` does. */
  lemma TickIsRun(s: State, t: nat, asOf: Millis, batch: seq<nat>, publishes: seq<bool>, times: seq<Millis>,
                  handled: nat, commits: bool)
    returns (steps: seq<Label>)
    requires t !in s.ticks && |publishes| == |times| == |batch| && Ascending(s.clock, times) && asOf <= s.clock
    requires IsBatch(s.db.outbox, set r | r in DueRows(s.db.outbox, asOf) && !HeldByTick(s.ticks, r) :: r, batch)
    requires handled <= |batch| && (commits ==> handled == |batch|)
    ensures CanRun(s, steps)
    ensures Run(s, steps).db == if commits
            then s.db.(outbox := HandleRows(s.db.outbox, Assign(batch, Results(publishes, times))))
            else s.db
    ensures Run(s, steps).events == s.events + EventsOf(s.db.outbox, batch[..handled], publishes[..handled])
    ensures Run(s, steps).ticks == s.ticks && Run(s, steps).copies == s.copies && Run(s, steps).requests == s.requests
    ensures Run(s, steps).clock == if handled == 0 then s.clock else times[handled - 1]
  {
    LockRows(s, t, asOf, batch);
    RowsStart(s.db.outbox, batch, Results(publishes, times));
    HandleRun(s, LockSteps(t, asOf, batch), s, t, asOf, batch, publishes, times, handled);
    RowsEnd(s.db.outbox, batch, Results(publishes, times));
    steps := HandleSteps(LockSteps(t, asOf, batch), t, batch, publishes, times, handled);
    var close := if commits then CommitTick else Rollback;
    CloseRun(s, steps, t, asOf, batch, publishes, times, handled, close);
    steps := steps + [Relay(t, close)];
  }

  lemma CloseRun(s: State, front: seq<Label>, t: nat, asOf: Millis, batch: seq<nat>, publishes: seq<bool>,
                 times: seq<Millis>, n: nat, step: RelayStep)
    requires t !in s.ticks && |publishes| == |times| == |batch| && n <= |batch| && (step.Rollback? || step.CommitTick?)
    requires forall i :: 0 <= i < |batch| ==> batch[i] in s.db.outbox
    requires CanRun(s, front) && Run(s, front) == AfterRows(s, t, asOf, batch, publishes, times, n)
    requires var p := Progress(s.db.outbox, asOf, batch, Results(publishes, times), n);
             step.CommitTick? ==> p.handled.Keys == p.rows.Keys
    ensures CanRun(s, front + [Relay(t, step)])
    ensures var s' := Run(s, front + [Relay(t, step)]);
            var rows := Progress(s.db.outbox, asOf, batch, Results(publishes, times), n).rows;
            && s'.db == (if step.Rollback? then s.db else s.db.(outbox := s.db.outbox + rows))
            && s'.events == s.events + EventsOf(s.db.outbox, batch[..n], publishes[..n])
            && s'.ticks == s.ticks && s'.copies == s.copies && s'.requests == s.requests
            && s'.clock == (if n == 0 then s.clock else times[n - 1])
  {
    var before := AfterRows(s, t, asOf, batch, publishes, times, n);
    assert before.ticks - {t} == s.ticks;
    Extend(s, front, before, Relay(t, step), DoRelay(before, t, step));
  }
}
