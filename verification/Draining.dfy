/** Emptying the outbox by successive ticks when nothing fails and no further row falls due. */
module Draining {
  import opened Basics
  import opened Tables
  import opened Pipeline
  import opened OutboxRelay

  function AfterTick(outbox: map<nat, OutboxRow>, batch: seq<nat>): map<nat, OutboxRow> {
    HandleRows(outbox, Handing(batch))
  }

  function Handing(batch: seq<nat>): map<nat, Handling> {
    map r | r in batch :: Handed
  }

  lemma HandingNext(front: seq<nat>, row: nat)
    ensures Handing(front + [row]) == Handing(front)[row := Handed]
  {
  }

  /** AfterTick is what a tick leaves when every row is published and saved. */
  lemma {:induction false} AllPublished(batch: seq<nat>, publishes: seq<bool>, times: seq<Millis>)
    requires |publishes| == |times| == |batch| && forall i :: 0 <= i < |publishes| ==> publishes[i]
    ensures Assign(batch, Results(publishes, times)) == Handing(batch)
  {
    if batch == [] {
      assert Handing(batch) == map[];
    } else {
      var n := |batch| - 1;
      AllPublished(batch[..n], publishes[..n], times[..n]);
      assert Results(publishes, times)[..n] == Results(publishes[..n], times[..n]);
      HandingNext(batch[..n], batch[n]);
      assert batch == batch[..n] + [batch[n]];
    }
  }

  /** Each batch answers the query on the outbox the ticks before it have left. */
  ghost predicate Drain(outbox: map<nat, OutboxRow>, asOfs: seq<Millis>, batches: seq<seq<nat>>)
    requires |asOfs| == |batches|
    decreases |batches|
  {
    batches == [] ||
    (IsBatch(outbox, DueRows(outbox, asOfs[0]), batches[0])
     && Drain(AfterTick(outbox, batches[0]), asOfs[1..], batches[1..]))
  }

  function Final(outbox: map<nat, OutboxRow>, batches: seq<seq<nat>>): map<nat, OutboxRow>
    decreases |batches|
  {
    if batches == [] then outbox else Final(AfterTick(outbox, batches[0]), batches[1..])
  }

  function Flatten(batches: seq<seq<nat>>): seq<nat> {
    if batches == [] then [] else batches[0] + Flatten(batches[1..])
  }

  function Elements(rows: seq<nat>): set<nat> {
    set r | r in rows
  }

  lemma {:induction false} DistinctSize(rows: seq<nat>)
    requires DistinctRows(rows)
    ensures |Elements(rows)| == |rows|
  {
    if rows != [] {
      var n := |rows| - 1;
      DistinctSize(rows[..n]);
      assert rows == rows[..n] + [rows[n]];
      assert Elements(rows) == Elements(rows[..n]) + {rows[n]};
    }
  }

  lemma SubsetSizes(s: set<nat>, t: set<nat>)
    requires s <= t
    ensures |t - s| == |t| - |s|
    ensures |s| == |t| ==> s == t
  {
    assert t == s + (t - s);
  }

  ghost predicate Drained(outbox: map<nat, OutboxRow>, due: set<nat>, all: seq<nat>, final: map<nat, OutboxRow>,
                          ticks: nat) {
    && DistinctRows(all) && ByAge(outbox, all) && Elements(all) <= due
    && |all| == (if |due| <= BATCH * ticks then |due| else BATCH * ticks)
    && final == HandleRows(outbox, Handing(all))
  }

  lemma DueAfter(outbox: map<nat, OutboxRow>, batch: seq<nat>, asOf: Millis)
    ensures DueRows(AfterTick(outbox, batch), asOf) == DueRows(outbox, asOf) - Elements(batch)
  {
  }

  lemma JoinOrder(outbox: map<nat, OutboxRow>, due: set<nat>, batch: seq<nat>, rest: seq<nat>)
    requires IsBatch(outbox, due, batch) && due <= outbox.Keys
    requires DistinctRows(rest) && ByAge(AfterTick(outbox, batch), rest) && Elements(rest) <= due - Elements(batch)
    ensures DistinctRows(batch + rest) && ByAge(outbox, batch + rest)
  {
    var all := batch + rest;
    forall i | 0 <= i < |rest|
      ensures rest[i] in due && rest[i] !in batch
    {
      assert rest[i] in Elements(rest) && rest[i] in due - Elements(batch);
    }
    forall i, j | 0 <= i < j < |all|
      ensures all[i] != all[j] && outbox[all[i]].createdAt <= outbox[all[j]].createdAt
    {
      if |batch| <= i {
        LaterOrder(outbox, batch, rest, i - |batch|, j - |batch|);
      } else if |batch| <= j {
        assert all[j] == rest[j - |batch|];
      }
    }
  }

  lemma LaterOrder(outbox: map<nat, OutboxRow>, batch: seq<nat>, rest: seq<nat>, i: nat, j: nat)
    requires DistinctRows(rest) && ByAge(AfterTick(outbox, batch), rest) && i < j < |rest|
    ensures rest[i] != rest[j] && rest[i] in outbox && rest[j] in outbox
    ensures outbox[rest[i]].createdAt <= outbox[rest[j]].createdAt
  {
  }

  lemma JoinFinal(outbox: map<nat, OutboxRow>, batch: seq<nat>, rest: seq<nat>)
    requires Elements(rest) !! Elements(batch)
    ensures HandleRows(AfterTick(outbox, batch), Handing(rest)) ==
        HandleRows(outbox, Handing(batch + rest))
  {
    assert forall r :: r in rest ==> r in Elements(rest);
  }

  lemma JoinCount(due: set<nat>, batch: seq<nat>, rest: seq<nat>, ticks: nat)
    requires DistinctRows(batch) && Elements(batch) <= due && Elements(rest) <= due - Elements(batch)
    requires |batch| == if |due| < BATCH then |due| else BATCH
    requires var left := |due - Elements(batch)|;
             |rest| == if left <= BATCH * ticks then left else BATCH * ticks
    ensures Elements(batch + rest) <= due
    ensures |batch + rest| == if |due| <= BATCH * (ticks + 1) then |due| else BATCH * (ticks + 1)
  {
    DistinctSize(batch);
    SubsetSizes(Elements(batch), due);
    assert Elements(batch + rest) == Elements(batch) + Elements(rest);
  }

  /** Joining the first tick with the ticks after it. */
  lemma Join(outbox: map<nat, OutboxRow>, due: set<nat>, batch: seq<nat>, rest: seq<nat>, final: map<nat, OutboxRow>,
             ticks: nat)
    requires IsBatch(outbox, due, batch) && due <= outbox.Keys
    requires Drained(AfterTick(outbox, batch), due - Elements(batch), rest, final, ticks)
    ensures Drained(outbox, due, batch + rest, final, ticks + 1)
  {
    JoinOrder(outbox, due, batch, rest);
    JoinFinal(outbox, batch, rest);
    JoinCount(due, batch, rest, ticks);
  }

  lemma DueRest(outbox: map<nat, OutboxRow>, asOfs: seq<Millis>, batch: seq<nat>, due: set<nat>)
    requires asOfs != [] && forall i :: 0 <= i < |asOfs| ==> DueRows(outbox, asOfs[i]) == due
    ensures forall i :: 0 <= i < |asOfs[1..]| ==>
        DueRows(AfterTick(outbox, batch), asOfs[1..][i]) == due - Elements(batch)
  {
    forall i | 0 <= i < |asOfs[1..]|
      ensures DueRows(AfterTick(outbox, batch), asOfs[1..][i]) == due - Elements(batch)
    {
      DueAfter(outbox, batch, asOfs[i + 1]);
    }
  }

  lemma DrainedNone(outbox: map<nat, OutboxRow>, due: set<nat>)
    ensures Drained(outbox, due, [], outbox, 0)
  {
    var none: seq<nat> := [];
    assert Handing(none) == map[];
    assert HandleRows(outbox, map[]) == outbox;
  }

  lemma {:induction false} DrainsFrom(outbox: map<nat, OutboxRow>, asOfs: seq<Millis>, batches: seq<seq<nat>>,
                                      due: set<nat>)
    requires |asOfs| == |batches| && Drain(outbox, asOfs, batches) && due <= outbox.Keys
    requires forall i :: 0 <= i < |asOfs| ==> DueRows(outbox, asOfs[i]) == due
    ensures Drained(outbox, due, Flatten(batches), Final(outbox, batches), |batches|)
    decreases |batches|
  {
    if batches == [] {
      DrainedNone(outbox, due);
    } else {
      var outbox' := AfterTick(outbox, batches[0]);
      DueRest(outbox, asOfs, batches[0], due);
      DrainsFrom(outbox', asOfs[1..], batches[1..], due - Elements(batches[0]));
      Join(outbox, due, batches[0], Flatten(batches[1..]), Final(outbox, batches), |batches| - 1);
    }
  }

  /** N due rows are all SENT after k ticks if and only if k is at least N/50 rounded up, and
      then the batches together are the due rows, each once, by age. */
  lemma DrainsExactly(outbox: map<nat, OutboxRow>, asOfs: seq<Millis>, batches: seq<seq<nat>>, due: set<nat>)
    requires |asOfs| == |batches| && Drain(outbox, asOfs, batches) && due <= outbox.Keys
    requires forall r :: r in due ==> outbox[r].status != OutSent
    requires forall i, r :: 0 <= i < |asOfs| ==>
      (r in due <==>
         && r in outbox && (outbox[r].status == OutPending || outbox[r].status == OutFailed)
         && (outbox[r].nextAttemptAt.None? || outbox[r].nextAttemptAt.value <= asOfs[i]))
    ensures Final(outbox, batches).Keys == outbox.Keys
    ensures (forall r :: r in due ==> Final(outbox, batches)[r].status == OutSent) <==> (|due| + 49) / 50 <= |batches|
    ensures (|due| + 49) / 50 <= |batches| ==>
      var rows := Flatten(batches);
      && (forall r :: r in rows <==> r in due)
      && (forall i, j :: 0 <= i < j < |rows| ==> rows[i] != rows[j])
      && (forall i, j :: 0 <= i < j < |rows| && rows[i] in outbox && rows[j] in outbox ==>
            outbox[rows[i]].createdAt <= outbox[rows[j]].createdAt)
  {
    DueLiterally(outbox, asOfs, due);
    DrainsFrom(outbox, asOfs, batches, due);
    SentExactly(outbox, due, Flatten(batches), Final(outbox, batches), |batches|);
  }

  lemma DueLiterally(outbox: map<nat, OutboxRow>, asOfs: seq<Millis>, due: set<nat>)
    requires forall i, r :: 0 <= i < |asOfs| ==>
      (r in due <==>
         && r in outbox && (outbox[r].status == OutPending || outbox[r].status == OutFailed)
         && (outbox[r].nextAttemptAt.None? || outbox[r].nextAttemptAt.value <= asOfs[i]))
    ensures forall i :: 0 <= i < |asOfs| ==> DueRows(outbox, asOfs[i]) == due
  {
    forall i | 0 <= i < |asOfs|
      ensures DueRows(outbox, asOfs[i]) == due
    {
      assert forall r :: r in DueRows(outbox, asOfs[i]) <==> r in due;
    }
  }

  lemma SentExactly(outbox: map<nat, OutboxRow>, due: set<nat>, all: seq<nat>, final: map<nat, OutboxRow>, ticks: nat)
    requires due <= outbox.Keys && forall r :: r in due ==> outbox[r].status != OutSent
    requires Drained(outbox, due, all, final, ticks)
    ensures final.Keys == outbox.Keys
    ensures (forall r :: r in due ==> final[r].status == OutSent) <==> |due| <= BATCH * ticks
    ensures |due| <= BATCH * ticks ==> Elements(all) == due
  {
    DistinctSize(all);
    SubsetSizes(Elements(all), due);
    assert forall r :: r in due ==> (final[r].status == OutSent <==> r in Elements(all));
    if forall r :: r in due ==> final[r].status == OutSent {
      assert Elements(all) == due;
    }
  }

  // ---- the draining ticks as a run of the machine ----

  function RowsOf(events: seq<Event>): seq<nat> {
    seq(|events|, i requires 0 <= i < |events| => events[i].row)
  }

  lemma RowsAppend(events: seq<Event>, more: seq<Event>)
    ensures RowsOf(events + more) == RowsOf(events) + RowsOf(more)
  {
  }

  function All<A>(n: nat, a: A): seq<A> {
    seq(n, _ => a)
  }

  lemma {:induction false} AllEvents(outbox: map<nat, OutboxRow>, batch: seq<nat>, publishes: seq<bool>)
    requires |batch| == |publishes| && forall i :: 0 <= i < |batch| ==> batch[i] in outbox && publishes[i]
    ensures RowsOf(EventsOf(outbox, batch, publishes)) == batch
  {
    if batch != [] {
      var n := |batch| - 1;
      AllEvents(outbox, batch[..n], publishes[..n]);
      RowsAppend(EventsOf(outbox, batch[..n], publishes[..n]),
                 [Event(batch[n], outbox[batch[n]].orderId, outbox[batch[n]].createdAt)]);
      assert batch == batch[..n] + [batch[n]];
    }
  }

  lemma NothingHeld(ticks: map<nat, Tick>, due: set<nat>)
    requires ticks == map[]
    ensures due == set r | r in due && !HeldByTick(ticks, r) :: r
  {
  }

  lemma AllHanded(outbox: map<nat, OutboxRow>, batch: seq<nat>, time: Millis)
    ensures HandleRows(outbox, Assign(batch, Results(All(|batch|, true), All(|batch|, time)))) ==
        AfterTick(outbox, batch)
  {
    AllPublished(batch, All(|batch|, true), All(|batch|, time));
  }

  lemma Ascends(from: Millis, n: nat)
    ensures Ascending(from, All(n, from))
  {
  }

  lemma TickEvents(outbox: map<nat, OutboxRow>, batch: seq<nat>, before: seq<Event>, after: seq<Event>)
    requires forall i :: 0 <= i < |batch| ==> batch[i] in outbox
    requires after == before + EventsOf(outbox, batch[..|batch|], All(|batch|, true)[..|batch|])
    ensures RowsOf(after) == RowsOf(before) + batch
  {
    var publishes := All(|batch|, true);
    assert batch[..|batch|] == batch && publishes[..|batch|] == publishes;
    AllEvents(outbox, batch, publishes);
    RowsAppend(before, EventsOf(outbox, batch, publishes));
  }

  lemma TickDrains(s: State, t: nat, asOf: Millis, batch: seq<nat>) returns (steps: seq<Label>)
    requires s.ticks == map[] && asOf <= s.clock && IsBatch(s.db.outbox, DueRows(s.db.outbox, asOf), batch)
    ensures CanRun(s, steps)
    ensures var s' := Run(s, steps);
            && s'.db == s.db.(outbox := AfterTick(s.db.outbox, batch)) && s'.ticks == map[] && s'.clock == s.clock
            && RowsOf(s'.events) == RowsOf(s.events) + batch
  {
    NothingHeld(s.ticks, DueRows(s.db.outbox, asOf));
    Ascends(s.clock, |batch|);
    steps := TickIsRun(s, t, asOf, batch, All(|batch|, true), All(|batch|, s.clock), |batch|, true);
    AllHanded(s.db.outbox, batch, s.clock);
    TickEvents(s.db.outbox, batch, s.events, Run(s, steps).events);
  }

  /** s' is s after these batches and nothing else. */
  ghost predicate DrainedTo(s: State, s': State, batches: seq<seq<nat>>) {
    && s'.db == s.db.(outbox := Final(s.db.outbox, batches)) && s'.ticks == map[] && s'.clock == s.clock
    && RowsOf(s'.events) == RowsOf(s.events) + Flatten(batches)
  }

  lemma DrainedNext(s: State, s1: State, s': State, batches: seq<seq<nat>>)
    requires batches != [] && DrainedTo(s1, s', batches[1..])
    requires s1.db == s.db.(outbox := AfterTick(s.db.outbox, batches[0])) && s1.clock == s.clock
    requires RowsOf(s1.events) == RowsOf(s.events) + batches[0]
    ensures DrainedTo(s, s', batches)
  {
    assert RowsOf(s.events) + batches[0] + Flatten(batches[1..]) == RowsOf(s.events) + Flatten(batches);
  }

  /** The ticks, one after another, are a run of the machine that leaves the outbox as `Final`
      says and hands the batches over in order. */
  lemma {:induction false} DrainIsRun(s: State, t: nat, asOfs: seq<Millis>, batches: seq<seq<nat>>)
    returns (steps: seq<Label>)
    requires s.ticks == map[] && |asOfs| == |batches| && Drain(s.db.outbox, asOfs, batches)
    requires forall i :: 0 <= i < |asOfs| ==> asOfs[i] <= s.clock
    ensures CanRun(s, steps) && DrainedTo(s, Run(s, steps), batches)
    decreases |batches|
  {
    if batches == [] {
      steps := [];
    } else {
      var first := TickDrains(s, t, asOfs[0], batches[0]);
      var s1 := Run(s, first);
      var rest := DrainIsRun(s1, t, asOfs[1..], batches[1..]);
      RunAppend(s, first, rest);
      steps := first + rest;
      DrainedNext(s, s1, Run(s1, rest), batches);
    }
  }

  /** From any state without an open tick there is a run of k ticks without failure, and after
      it the due rows are all SENT if and only if k is at least N/50 rounded up. */
  lemma RunDrains(s: State, t: nat, asOfs: seq<Millis>, batches: seq<seq<nat>>, due: set<nat>)
    returns (steps: seq<Label>)
    requires s.ticks == map[] && |asOfs| == |batches| && Drain(s.db.outbox, asOfs, batches)
    requires forall i :: 0 <= i < |asOfs| ==> asOfs[i] <= s.clock
    requires forall r :: r in due ==> r in s.db.outbox && s.db.outbox[r].status != OutSent
    requires forall i, r :: 0 <= i < |asOfs| ==>
      (r in due <==>
         && r in s.db.outbox && (s.db.outbox[r].status == OutPending || s.db.outbox[r].status == OutFailed)
         && (s.db.outbox[r].nextAttemptAt.None? || s.db.outbox[r].nextAttemptAt.value <= asOfs[i]))
    ensures CanRun(s, steps)
    ensures var s' := Run(s, steps);
            && s'.db.outbox.Keys == s.db.outbox.Keys
            && ((forall r :: r in due ==> s'.db.outbox[r].status == OutSent) <==> (|due| + 49) / 50 <= |batches|)
            && RowsOf(s'.events) == RowsOf(s.events) + Flatten(batches)
    ensures (|due| + 49) / 50 <= |batches| ==>
      var rows := Flatten(batches);
      (forall r :: r in rows <==> r in due) && (forall i, j :: 0 <= i < j < |rows| ==> rows[i] != rows[j])
  {
    steps := DrainIsRun(s, t, asOfs, batches);
    DrainsExactly(s.db.outbox, asOfs, batches, due);
  }

  // ---- the query always has an answer ----

  lemma {:induction false} Oldest(outbox: map<nat, OutboxRow>, due: set<nat>) returns (row: nat)
    requires due != {} && due <= outbox.Keys
    ensures row in due && forall r :: r in due ==> outbox[row].createdAt <= outbox[r].createdAt
    decreases |due|
  {
    row :| row in due;
    if due != {row} {
      var other := Oldest(outbox, due - {row});
      if outbox[other].createdAt < outbox[row].createdAt { row := other; }
    }
  }

  lemma {:induction false} BatchOf(outbox: map<nat, OutboxRow>, due: set<nat>, limit: nat) returns (batch: seq<nat>)
    requires due <= outbox.Keys
    ensures OldestFirst(outbox, due, batch, limit)
    decreases limit
  {
    if limit == 0 || due == {} {
      batch := [];
    } else {
      var first := Oldest(outbox, due);
      var rest := BatchOf(outbox, due - {first}, limit - 1);
      batch := [first] + rest;
      forall r | r in due && r !in batch
        ensures r in due - {first} && r !in rest
      {
      }
    }
  }

  /** Ticks can always go on, whatever their times. */
  lemma {:induction false} DrainExists(outbox: map<nat, OutboxRow>, asOfs: seq<Millis>) returns (batches: seq<seq<nat>>)
    ensures |batches| == |asOfs| && Drain(outbox, asOfs, batches)
    decreases |asOfs|
  {
    if asOfs == [] {
      batches := [];
    } else {
      var first := BatchExists(outbox, DueRows(outbox, asOfs[0]));
      var rest := DrainExists(AfterTick(outbox, first), asOfs[1..]);
      batches := [first] + rest;
      assert batches[1..] == rest;
    }
  }

  lemma BatchExists(outbox: map<nat, OutboxRow>, due: set<nat>) returns (batch: seq<nat>)
    requires due <= outbox.Keys
    ensures IsBatch(outbox, due, batch)
  {
    batch := BatchOf(outbox, due, BATCH);
  }
}
