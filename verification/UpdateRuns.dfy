/** `updateStatus` as a run of the machine, with the rest of the system going on between its
    read, its save's load and its save's write. */
module UpdateRuns {
  import opened Basics
  import opened Tables
  import opened Pipeline
  import opened Updates
  import opened Invariants
  import opened Theorems

  /** The labels of the other parts of the system. */
  predicate LeavesAlone(ls: seq<Label>, u: nat) {
    forall i :: 0 <= i < |ls| ==> !(ls[i].UpdateStatus? && ls[i].update == u)
  }

  lemma AloneStatus(s: State, x: nat, step: StatusStep, u: nat)
    requires CanStatus(s, x, step) && x != u && u in s.updates
    ensures u in DoStatus(s, x, step).updates && DoStatus(s, x, step).updates[u] == s.updates[u]
  {
  }

  lemma AloneStep(s: State, l: Label, u: nat)
    requires Enabled(s, l) && !(l.UpdateStatus? && l.update == u) && u in s.updates
    ensures u in Step(s, l).updates && Step(s, l).updates[u] == s.updates[u]
  {
    match l
    case Create(r, step) => CreateFrame(s, r, step);
    case Work(c, step) => WorkFrame(s, c, step);
    case Relay(t, step) => RelayFrame(s, t, step);
    case UpdateStatus(x, step) => AloneStatus(s, x, step, u);
    case _ =>
  }

  lemma {:induction false} AloneRun(s: State, ls: seq<Label>, u: nat)
    requires CanRun(s, ls) && LeavesAlone(ls, u) && u in s.updates
    ensures u in Run(s, ls).updates && Run(s, ls).updates[u] == s.updates[u]
    decreases |ls|
  {
    if ls != [] {
      AloneStep(s, ls[0], u);
      AloneRun(Step(s, ls[0]), ls[1..], u);
    }
  }

  /** Read, then others, then the load. */
  lemma UpToLoad(s: State, u: nat, o: nat, to: Status, others: seq<Label>)
    requires CanRun(s, [UpdateStatus(u, ReadOrder(o, to))] + others) && LeavesAlone(others, u)
    ensures o in s.db.orders
    ensures var atLoad := Run(s, [UpdateStatus(u, ReadOrder(o, to))] + others);
            u in atLoad.updates && atLoad.updates[u] == Update(o, to, s.db.orders[o], None)
  {
    var read := UpdateStatus(u, ReadOrder(o, to));
    assert ([read] + others)[0] == read && ([read] + others)[1..] == others;
    AloneRun(Step(s, read), others, u);
  }

  /** The load, then others. */
  lemma UpToWrite(s: State, u: nat, others: seq<Label>)
    requires u in s.updates && CanRun(s, [UpdateStatus(u, LoadRow)] + others) && LeavesAlone(others, u)
    ensures s.updates[u].order in s.db.orders
    ensures var atWrite := Run(s, [UpdateStatus(u, LoadRow)] + others);
            && u in atWrite.updates
            && atWrite.updates[u] == s.updates[u].(loaded := Some(s.db.orders[s.updates[u].order]))
  {
    var load := UpdateStatus(u, LoadRow);
    assert ([load] + others)[0] == load && ([load] + others)[1..] == others;
    AloneRun(Step(s, load), others, u);
  }

  lemma OrderStays(stocks: map<int, Stock>, s: State, u: nat)
    requires Reachable(stocks, s) && u in s.updates
    ensures s.updates[u].order in s.db.orders
  {
    ReachableInv(stocks, s);
    assert UpdateOk(s.updates[u], s.db.orders);
  }

  /** Whatever other labels stand between its three steps, the update is a run of the machine,
      and leaves what the service's method leaves of the tables at its write. */
  lemma UpdateIsRun(stocks: map<int, Stock>, s: State, u: nat, o: nat, to: Status,
                    beforeLoad: seq<Label>, beforeWrite: seq<Label>)
    requires Reachable(stocks, s) && LeavesAlone(beforeLoad, u) && LeavesAlone(beforeWrite, u)
    requires CanRun(s, [UpdateStatus(u, ReadOrder(o, to))] + beforeLoad + ([UpdateStatus(u, LoadRow)] + beforeWrite))
    ensures var first := [UpdateStatus(u, ReadOrder(o, to))] + beforeLoad;
            var second := first + ([UpdateStatus(u, LoadRow)] + beforeWrite);
            && CanRun(s, first) && CanRun(s, second) && CanRun(s, second + [UpdateStatus(u, WriteRow)])
            && var atLoad, atWrite := Run(s, first).db, Run(s, second).db;
            && o in s.db.orders && Allowed(s.db.orders[o].status, to) && o in atLoad.orders && o in atWrite.orders
            && Run(s, second + [UpdateStatus(u, WriteRow)]).db
               == atWrite.(orders := atWrite.orders[o := Saved(atWrite.orders[o],
                                                               Update(o, to, s.db.orders[o], Some(atLoad.orders[o])))])
  {
    var first := [UpdateStatus(u, ReadOrder(o, to))] + beforeLoad;
    var rest := [UpdateStatus(u, LoadRow)] + beforeWrite;
    RunSplit(s, first, rest);
    assert first[0] == UpdateStatus(u, ReadOrder(o, to));
    UpToLoad(s, u, o, to, beforeLoad);
    UpToWrite(Run(s, first), u, beforeWrite);
    ReachableAfter(stocks, s, first + rest);
    var atWrite := Run(s, first + rest);
    OrderStays(stocks, atWrite, u);
    var write := UpdateStatus(u, WriteRow);
    Extend(s, first + rest, atWrite, write, Step(atWrite, write));
  }
}
