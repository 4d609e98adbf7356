/** Two requests with one idempotency key, as a run: both find no order at their lookup, the
    first takes the last unit, and the second, which waited for the stock row, is answered
    with a conflict although the order of its key exists. */
module DuplicateRace {
  import opened Basics
  import opened Tables
  import opened Pipeline
  import StatusRace

  function Shelf(): map<int, Stock> {
    StatusRace.Shelf()
  }

  function Loaded(reserved: int): map<int, Stock> {
    StatusRace.Loaded(reserved)
  }

  function Dto(): CreateDto {
    StatusRace.Dto().(key := Some("key"))
  }

  function Ask(phase: Phase, copies: map<int, Stock>, orderId: nat): Request {
    Request(Dto(), phase, copies, orderId, false)
  }

  /** The second request, past its lookup. */
  function Waiting(): Request {
    Ask(Locking, map[], 0)
  }

  function One(): State {
    Init(Shelf(), 0).(requests := map[0 := Ask(Looking, map[], 0)])
  }

  /** Both requests, before the first one commits. */
  function Two(first: Request, second: Request, orderId: nat): State {
    Init(Shelf(), 0).(requests := map[0 := first, 1 := second], nextOrderId := orderId + 1)
  }

  /** The first request has committed. */
  function Taken(second: Request): State {
    Init(Shelf(), 0).(
      db := ApplyCreate(EmptyDb(Shelf()), 1, Dto()),
      nextOrderId := 2,
      requests := map[0 := Request(Dto(), Committed, map[], 1, true), 1 := second],
      past := Init(Shelf(), 0).past.(log := [Created(0, 1, Dto())]))
  }

  /** The label leads from s to s'. */
  ghost predicate Leads(s: State, l: Label, s': State) {
    Enabled(s, l) && Step(s, l) == s'
  }

  lemma FirstArrives()
    ensures Leads(Init(Shelf(), 0), Arrive(0, Dto()), One())
  {
  }

  lemma SecondArrives()
    ensures Leads(One(), Arrive(1, Dto()), Two(Ask(Looking, map[], 0), Ask(Looking, map[], 0), 0))
  {
  }

  lemma FirstLooks()
    ensures Leads(Two(Ask(Looking, map[], 0), Ask(Looking, map[], 0), 0), Create(0, Lookup),
                  Two(Ask(Locking, map[], 0), Ask(Looking, map[], 0), 0))
  {
  }

  lemma SecondLooks()
    ensures Leads(Two(Ask(Locking, map[], 0), Ask(Looking, map[], 0), 0), Create(1, Lookup),
                  Two(Ask(Locking, map[], 0), Waiting(), 0))
  {
  }

  lemma FirstLocks()
    ensures Leads(Two(Ask(Locking, map[], 0), Waiting(), 0), Create(0, LockRow(1)),
                  Two(Ask(Locking, Loaded(0), 0), Waiting(), 0))
  {
    assert Dto().items[0].product in Products(Dto().items);
    assert map[][1 := Stock(1, 0)] == Loaded(0);
  }

  lemma FirstValidates()
    ensures Leads(Two(Ask(Locking, Loaded(0), 0), Waiting(), 0), Create(0, Validate),
                  Two(Ask(Validated, Loaded(0), 0), Waiting(), 0))
  {
  }

  lemma FirstInserts()
    ensures Leads(Two(Ask(Validated, Loaded(0), 0), Waiting(), 0), Create(0, Insert),
                  Two(Ask(Inserted, Loaded(0), 1), Waiting(), 1))
  {
  }

  lemma FirstSaves()
    ensures Leads(Two(Ask(Inserted, Loaded(0), 1), Waiting(), 1), Create(0, SaveItems),
                  Two(Ask(Reserving(0), Loaded(0), 1), Waiting(), 1))
  {
  }

  lemma FirstReserves()
    ensures Leads(Two(Ask(Reserving(0), Loaded(0), 1), Waiting(), 1), Create(0, ReserveLine),
                  Two(Ask(Reserving(1), Loaded(1), 1), Waiting(), 1))
  {
    assert Loaded(0)[1 := Stock(1, 1)] == Loaded(1);
    assert Dto().items[0].product == 1;
  }

  lemma FirstCommits()
    ensures Leads(Two(Ask(Reserving(1), Loaded(1), 1), Waiting(), 1), Create(0, Commit), Taken(Waiting()))
  {
    StatusRace.CommitsTables(Dto());
  }

  lemma SecondLocks()
    ensures Leads(Taken(Waiting()), Create(1, LockRow(1)), Taken(Ask(Locking, Loaded(1), 0)))
  {
    assert Dto().items[0].product in Products(Dto().items);
    assert ReserveAll(Shelf(), Dto().items)[1] == Stock(1, 1);
    assert map[][1 := Stock(1, 1)] == Loaded(1);
  }

  lemma SecondFails()
    ensures Leads(Taken(Ask(Locking, Loaded(1), 0)), Create(1, Validate),
                  Taken(Ask(Finished(Threw(Conflict)), map[], 0)))
  {
    assert !LineAvailable(Loaded(1), Dto().items[0]);
  }

  lemma BothLook() returns (ls: seq<Label>)
    ensures CanRun(Init(Shelf(), 0), ls) && Run(Init(Shelf(), 0), ls) == Two(Ask(Locking, map[], 0), Waiting(), 0)
  {
    var s0 := Init(Shelf(), 0);
    FirstArrives();
    RunOne(s0, Arrive(0, Dto()));
    ls := [Arrive(0, Dto())];
    SecondArrives();
    Extend(s0, ls, One(), Arrive(1, Dto()), Two(Ask(Looking, map[], 0), Ask(Looking, map[], 0), 0));
    ls := ls + [Arrive(1, Dto())];
    FirstLooks();
    Extend(s0, ls, Two(Ask(Looking, map[], 0), Ask(Looking, map[], 0), 0), Create(0, Lookup),
           Two(Ask(Locking, map[], 0), Ask(Looking, map[], 0), 0));
    ls := ls + [Create(0, Lookup)];
    SecondLooks();
    Extend(s0, ls, Two(Ask(Locking, map[], 0), Ask(Looking, map[], 0), 0), Create(1, Lookup),
           Two(Ask(Locking, map[], 0), Waiting(), 0));
    ls := ls + [Create(1, Lookup)];
  }

  lemma Reserves() returns (ls: seq<Label>)
    ensures CanRun(Init(Shelf(), 0), ls)
    ensures Run(Init(Shelf(), 0), ls) == Two(Ask(Reserving(1), Loaded(1), 1), Waiting(), 1)
  {
    var s0 := Init(Shelf(), 0);
    ls := BothLook();
    FirstLocks();
    Extend(s0, ls, Two(Ask(Locking, map[], 0), Waiting(), 0), Create(0, LockRow(1)),
           Two(Ask(Locking, Loaded(0), 0), Waiting(), 0));
    ls := ls + [Create(0, LockRow(1))];
    FirstValidates();
    Extend(s0, ls, Two(Ask(Locking, Loaded(0), 0), Waiting(), 0), Create(0, Validate),
           Two(Ask(Validated, Loaded(0), 0), Waiting(), 0));
    ls := ls + [Create(0, Validate)];
    FirstInserts();
    Extend(s0, ls, Two(Ask(Validated, Loaded(0), 0), Waiting(), 0), Create(0, Insert),
           Two(Ask(Inserted, Loaded(0), 1), Waiting(), 1));
    ls := ls + [Create(0, Insert)];
    FirstSaves();
    Extend(s0, ls, Two(Ask(Inserted, Loaded(0), 1), Waiting(), 1), Create(0, SaveItems),
           Two(Ask(Reserving(0), Loaded(0), 1), Waiting(), 1));
    ls := ls + [Create(0, SaveItems)];
    FirstReserves();
    Extend(s0, ls, Two(Ask(Reserving(0), Loaded(0), 1), Waiting(), 1), Create(0, ReserveLine),
           Two(Ask(Reserving(1), Loaded(1), 1), Waiting(), 1));
    ls := ls + [Create(0, ReserveLine)];
  }

  lemma Conflicts() returns (ls: seq<Label>)
    ensures CanRun(Init(Shelf(), 0), ls) && Run(Init(Shelf(), 0), ls) == Taken(Ask(Finished(Threw(Conflict)), map[], 0))
  {
    var s0 := Init(Shelf(), 0);
    ls := Reserves();
    FirstCommits();
    Extend(s0, ls, Two(Ask(Reserving(1), Loaded(1), 1), Waiting(), 1), Create(0, Commit), Taken(Waiting()));
    ls := ls + [Create(0, Commit)];
    SecondLocks();
    Extend(s0, ls, Taken(Waiting()), Create(1, LockRow(1)), Taken(Ask(Locking, Loaded(1), 0)));
    ls := ls + [Create(1, LockRow(1))];
    SecondFails();
    Extend(s0, ls, Taken(Ask(Locking, Loaded(1), 0)), Create(1, Validate),
           Taken(Ask(Finished(Threw(Conflict)), map[], 0)));
    ls := ls + [Create(1, Validate)];
  }

  /** The duplicate ends in a conflict while its key is taken, by an order with its own lines. */
  lemma DuplicateGetsConflict() returns (ls: seq<Label>)
    ensures CanRun(Init(Shelf(), 0), ls)
    ensures var s := Run(Init(Shelf(), 0), ls);
            && s.requests.Keys == {0, 1} && s.requests[0].dto == s.requests[1].dto == Dto()
            && s.requests[0].committed && s.requests[1].phase == Finished(Threw(Conflict))
            && s.db.items.Keys == {1} && KeyTaken(s.db.orders, "key") && s.db.items[1] == StoredItems(Dto().items)
  {
    ls := Conflicts();
    assert 1 in Taken(Waiting()).db.orders && Taken(Waiting()).db.orders[1].key == Some("key");
  }
}
