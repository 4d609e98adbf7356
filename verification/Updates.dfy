/** Status updates in flight: `updateStatus` reads an order, checks the transition, and
    later saves the entity it read. What the rows have become in between, and exactly when
    the late save is still the checked transition. */
module Updates {
  import opened Basics
  import opened Tables
  import opened Pipeline

  // ---- what always holds ----

  ghost predicate UpdateOk(u: Update, orders: map<nat, OrderRow>) {
    && u.order in orders && Allowed(u.read.status, u.to)
    && (u.read.status != Pending ==> orders[u.order].status != Pending)
  }

  ghost predicate UpdatesInv(updates: map<nat, Update>, orders: map<nat, OrderRow>) {
    forall u :: u in updates ==> UpdateOk(updates[u], orders)
  }

  /** Orders appear, and none returns to PENDING. */
  ghost predicate LeftPending(orders: map<nat, OrderRow>, orders': map<nat, OrderRow>) {
    forall o :: o in orders ==> o in orders' && (orders[o].status != Pending ==> orders'[o].status != Pending)
  }

  lemma UpdatesFrame(updates: map<nat, Update>, orders: map<nat, OrderRow>, orders': map<nat, OrderRow>)
    requires UpdatesInv(updates, orders) && LeftPending(orders, orders')
    ensures UpdatesInv(updates, orders')
  {
    assert forall u :: u in updates ==> UpdateOk(updates[u], orders);
  }

  lemma UpdatesAfterStatus(s: State, u: nat, step: StatusStep)
    requires UpdatesInv(s.updates, s.db.orders) && CanStatus(s, u, step)
    ensures var s' := DoStatus(s, u, step); UpdatesInv(s'.updates, s'.db.orders)
  {
    var s' := DoStatus(s, u, step);
    assert u in s.updates ==> UpdateOk(s.updates[u], s.db.orders);
    if step.WriteRow? {
      UpdatesFrame(s.updates, s.db.orders, s'.db.orders);
    } else {
      assert forall x :: x in s.updates ==> UpdateOk(s.updates[x], s.db.orders);
    }
  }

  // ---- timely saves ----

  /** The save changes no status, or makes a transition the row as it is now allows. */
  predicate Timely(current: OrderRow, u: Update)
    requires u.loaded.Some?
  {
    u.loaded.value.status == u.to || current.status == u.to || Allowed(current.status, u.to)
  }

  /** The save writes one status over another. */
  predicate Writes(current: OrderRow, u: Update)
    requires u.loaded.Some?
  {
    Saved(current, u).status != current.status
  }

  /** In every reachable state: the status keeps climbing exactly under a timely save. */
  lemma ClimbsExactly(orders: map<nat, OrderRow>, u: Update)
    requires UpdateOk(u, orders) && u.loaded.Some?
    ensures var current := orders[u.order];
            (!Writes(current, u) || Rank(current.status) < Rank(Saved(current, u).status)) <==> Timely(current, u)
  {
  }

  // ---- what holds as long as every save was timely ----

  predicate Stamped(row: OrderRow) {
    row.status == Processed <==> row.processedAt.Some?
  }

  /** later is what a row can become when its status only climbs. */
  predicate Moved(row: OrderRow, later: OrderRow) {
    || later == row
    || (Rank(row.status) < Rank(later.status)
        && later == row.(status := later.status, processedAt := later.processedAt))
  }

  ghost predicate UpdateSteady(u: Update, orders: map<nat, OrderRow>) {
    && u.order in orders && Stamped(u.read) && Moved(u.read, orders[u.order])
    && (u.loaded.Some? ==>
          Stamped(u.loaded.value) && Moved(u.read, u.loaded.value) && Moved(u.loaded.value, orders[u.order]))
  }

  ghost predicate Steady(updates: map<nat, Update>, orders: map<nat, OrderRow>) {
    && (forall o :: o in orders ==> Stamped(orders[o]))
    && (forall u :: u in updates ==> UpdateSteady(updates[u], orders))
  }

  ghost predicate OrdersMoved(orders: map<nat, OrderRow>, orders': map<nat, OrderRow>) {
    && (forall o :: o in orders ==> o in orders' && Moved(orders[o], orders'[o]))
    && (forall o :: o in orders' ==> Stamped(orders'[o]))
  }

  lemma SteadyFrame(updates: map<nat, Update>, orders: map<nat, OrderRow>, orders': map<nat, OrderRow>)
    requires Steady(updates, orders) && OrdersMoved(orders, orders')
    ensures Steady(updates, orders')
  {
    forall u | u in updates
      ensures UpdateSteady(updates[u], orders')
    {
      assert UpdateSteady(updates[u], orders);
    }
  }

  /** A timely save is the checked transition, or nothing; any other one breaks the rules. */
  lemma SaveSteady(orders: map<nat, OrderRow>, u: Update)
    requires UpdateOk(u, orders) && UpdateSteady(u, orders) && u.loaded.Some? && Stamped(orders[u.order])
    ensures var current := orders[u.order]; var row := Saved(current, u);
            if Timely(current, u)
            then row == current || (Allowed(current.status, u.to) && row == current.(status := u.to))
            else row != current && !Allowed(current.status, u.to)
  {
  }

  /** Every status update in the log was a transition the row allowed. */
  ghost predicate Clean(log: seq<Entry>) {
    forall i :: 0 <= i < |log| ==> !log[i].StatusOverwritten?
  }

  lemma CleanAppend(log: seq<Entry>, more: seq<Entry>)
    ensures Clean(log + more) <==> Clean(log) && Clean(more)
  {
    if Clean(log + more) {
      assert forall i :: 0 <= i < |log| ==> (log + more)[i] == log[i];
      assert forall i :: 0 <= i < |more| ==> (log + more)[|log| + i] == more[i];
    }
  }

  lemma SaveLogged(orders: map<nat, OrderRow>, u: Update)
    requires UpdateOk(u, orders) && UpdateSteady(u, orders) && u.loaded.Some? && Stamped(orders[u.order])
    ensures Clean(SaveEntries(orders[u.order], u)) <==> Timely(orders[u.order], u)
  {
    SaveSteady(orders, u);
    var entries := SaveEntries(orders[u.order], u);
    assert !Timely(orders[u.order], u) ==> entries[0].StatusOverwritten?;
  }

  lemma SteadyAfterWrite(s: State, u: nat)
    requires CanStatus(s, u, WriteRow) && Steady(s.updates, s.db.orders) && UpdatesInv(s.updates, s.db.orders)
    requires Timely(s.db.orders[s.updates[u].order], s.updates[u])
    ensures var s' := DoStatus(s, u, WriteRow); Steady(s'.updates, s'.db.orders)
  {
    var update := s.updates[u];
    assert UpdateOk(update, s.db.orders) && UpdateSteady(update, s.db.orders);
    SaveSteady(s.db.orders, update);
    SteadyFrame(s.updates, s.db.orders, DoStatus(s, u, WriteRow).db.orders);
  }

  lemma SteadyAfterRead(s: State, u: nat, step: StatusStep)
    requires CanStatus(s, u, step) && !step.WriteRow? && Steady(s.updates, s.db.orders)
    ensures var s' := DoStatus(s, u, step); Steady(s'.updates, s'.db.orders)
  {
    var s' := DoStatus(s, u, step);
    forall x | x in s'.updates
      ensures UpdateSteady(s'.updates[x], s.db.orders)
    {
      assert x in s.updates ==> UpdateSteady(s.updates[x], s.db.orders);
    }
  }

  ghost predicate SteadyInv(s: State) {
    Clean(s.past.log) ==> Steady(s.updates, s.db.orders)
  }

  lemma SteadyAfterStatus(s: State, u: nat, step: StatusStep)
    requires SteadyInv(s) && UpdatesInv(s.updates, s.db.orders) && CanStatus(s, u, step)
    ensures SteadyInv(DoStatus(s, u, step))
    ensures Clean(s.past.log) ==>
      (Clean(DoStatus(s, u, step).past.log) <==>
         step.WriteRow? ==> Timely(s.db.orders[s.updates[u].order], s.updates[u]))
  {
    if step.WriteRow? {
      var update := s.updates[u];
      assert UpdateOk(update, s.db.orders);
      CleanAppend(s.past.log, SaveEntries(s.db.orders[update.order], update));
      if Clean(s.past.log) {
        assert UpdateSteady(update, s.db.orders);
        SaveLogged(s.db.orders, update);
        if Timely(s.db.orders[update.order], update) { SteadyAfterWrite(s, u); }
      }
    } else {
      if Clean(s.past.log) { SteadyAfterRead(s, u, step); }
    }
  }

  // ---- the log with every update taken for the transition it was checked to be ----

  function Claim(e: Entry): Entry {
    if e.StatusOverwritten? then StatusSet(e.order, e.to) else e
  }

  function Claimed(log: seq<Entry>): seq<Entry> {
    if log == [] then [] else Claimed(log[..|log| - 1]) + [Claim(log[|log| - 1])]
  }

  lemma {:induction false} CleanClaims(log: seq<Entry>)
    requires Clean(log)
    ensures Claimed(log) == log
  {
    if log != [] {
      CleanClaims(log[..|log| - 1]);
    }
  }

  /** No serial execution of the claimed transactions exists once one was not timely. */
  ghost predicate ClaimInv(db0: Db, log: seq<Entry>) {
    !Clean(log) ==> Replay(db0, Claimed(log)) == None
  }

  lemma ClaimSnoc(log: seq<Entry>, e: Entry)
    ensures Claimed(log + [e]) == Claimed(log) + [Claim(e)]
  {
    assert (log + [e])[..|log|] == log;
  }

  lemma ClaimAppend(db0: Db, log: seq<Entry>, db: Db, e: Entry)
    requires ClaimInv(db0, log) && (Clean(log) ==> Replay(db0, log) == Some(db))
    requires e.StatusOverwritten? && Clean(log) ==> !Accepts(db, Claim(e))
    ensures ClaimInv(db0, log + [e])
  {
    ClaimSnoc(log, e);
    CleanAppend(log, [e]);
    assert (Claimed(log) + [Claim(e)])[..|Claimed(log)|] == Claimed(log);
    if Clean(log) {
      CleanClaims(log);
      if !e.StatusOverwritten? { assert Clean([e]); }
    }
  }

  // ---- all of it ----

  ghost predicate StatusInv(db0: Db, s: State) {
    && UpdatesInv(s.updates, s.db.orders)
    && SteadyInv(s)
    && ClaimInv(db0, s.past.log)
  }

  /** Another transaction commits, and moves orders on as the status order allows. */
  lemma StatusAfterCommit(db0: Db, s: State, s': State, e: Entry)
    requires StatusInv(db0, s) && Replay(db0, s.past.log) == Some(s.db)
    requires s'.updates == s.updates && s'.past.log == s.past.log + [e] && !e.StatusOverwritten?
    requires LeftPending(s.db.orders, s'.db.orders)
    requires Steady(s.updates, s.db.orders) ==> OrdersMoved(s.db.orders, s'.db.orders)
    ensures StatusInv(db0, s')
  {
    UpdatesFrame(s.updates, s.db.orders, s'.db.orders);
    ClaimAppend(db0, s.past.log, s.db, e);
    CleanAppend(s.past.log, [e]);
    if Clean(s'.past.log) { SteadyFrame(s.updates, s.db.orders, s'.db.orders); }
  }

  lemma SaveClaims(db0: Db, s: State, u: nat)
    requires StatusInv(db0, s) && Replay(db0, s.past.log) == Some(s.db) && CanStatus(s, u, WriteRow)
    ensures ClaimInv(db0, DoStatus(s, u, WriteRow).past.log)
  {
    var update := s.updates[u];
    var current := s.db.orders[update.order];
    var entries := SaveEntries(current, update);
    assert UpdateOk(update, s.db.orders);
    if entries == [] {
      assert s.past.log + entries == s.past.log;
    } else {
      if Clean(s.past.log) {
        assert UpdateSteady(update, s.db.orders);
        SaveSteady(s.db.orders, update);
      }
      ClaimAppend(db0, s.past.log, s.db, entries[0]);
      assert entries == [entries[0]];
    }
  }

  lemma StatusKeepsStatus(db0: Db, s: State, u: nat, step: StatusStep)
    requires StatusInv(db0, s) && Replay(db0, s.past.log) == Some(s.db) && CanStatus(s, u, step)
    ensures StatusInv(db0, DoStatus(s, u, step))
  {
    UpdatesAfterStatus(s, u, step);
    SteadyAfterStatus(s, u, step);
    if step.WriteRow? { SaveClaims(db0, s, u); }
  }

  /** What the save writes is what its log entry says. */
  lemma SaveApplied(db: Db, u: Update)
    requires u.loaded.Some? && u.order in db.orders
    ensures var current := db.orders[u.order]; var entries := SaveEntries(current, u);
            var db' := db.(orders := db.orders[u.order := Saved(current, u)]);
            if entries == [] then db' == db
            else |entries| == 1 && Accepts(db, entries[0]) && Apply(db, entries[0]) == db'
  {
    var current := db.orders[u.order];
    if SaveEntries(current, u) == [] { assert db.orders[u.order := current] == db.orders; }
  }

  lemma SaveIsLogged(db0: Db, s: State, u: nat)
    requires Replay(db0, s.past.log) == Some(s.db) && CanStatus(s, u, WriteRow)
    ensures var s' := DoStatus(s, u, WriteRow); Replay(db0, s'.past.log) == Some(s'.db)
  {
    var update := s.updates[u];
    var entries := SaveEntries(s.db.orders[update.order], update);
    SaveApplied(s.db, update);
    if entries == [] {
      assert s.past.log + entries == s.past.log;
    } else {
      assert entries == [entries[0]];
      ReplaySnoc(db0, s.past.log, s.db, entries[0]);
    }
  }
}
