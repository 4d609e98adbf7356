/** The race of `updateStatus` with the worker, as a run: an order is created and published,
    an update reads it while it is PENDING, the worker processes it, and the update saves. */
module StatusRace {
  import opened Basics
  import opened Tables
  import opened Pipeline
  import opened Updates
  import opened Invariants
  import opened Theorems

  function Shelf(): map<int, Stock> {
    map[1 := Stock(1, 0)]
  }

  function Dto(): CreateDto {
    CreateDto(1, None, None, [Line(1, 1, 1.0, 0.0)])
  }

  function Loaded(reserved: int): map<int, Stock> {
    map[1 := Stock(1, reserved)]
  }

  /** The request in the given phase, before its commit. */
  function Requested(phase: Phase, copies: map<int, Stock>, orderId: nat): State {
    Init(Shelf(), 0).(requests := map[0 := Request(Dto(), phase, copies, orderId, false)], nextOrderId := orderId + 1)
  }

  function Message(): Msg {
    Msg(0, 1, 1, false)
  }

  /** The order is committed and its message published. */
  function Placed(): State {
    Init(Shelf(), 0).(
      db := ApplyCreate(EmptyDb(Shelf()), 1, Dto()),
      nextOrderId := 2,
      requests := map[0 := Request(Dto(), Published, map[], 1, true)],
      copies := map[0 := Fresh(Message())],
      past := Init(Shelf(), 0).past.(log := [Created(0, 1, Dto())], published := map[0 := 1]))
  }

  lemma Locks() returns (ls: seq<Label>)
    ensures CanRun(Init(Shelf(), 0), ls) && Run(Init(Shelf(), 0), ls) == Requested(Locking, Loaded(0), 0)
  {
    var s0 := Init(Shelf(), 0);
    var s1, s2, s3 := Requested(Looking, map[], 0), Requested(Locking, map[], 0), Requested(Locking, Loaded(0), 0);
    RunOne(s0, Arrive(0, Dto()));
    Extend(s0, [Arrive(0, Dto())], s1, Create(0, Lookup), s2);
    assert Dto().items[0].product in Products(Dto().items);
    Extend(s0, [Arrive(0, Dto())] + [Create(0, Lookup)], s2, Create(0, LockRow(1)), s3);
    ls := [Arrive(0, Dto())] + [Create(0, Lookup)] + [Create(0, LockRow(1))];
  }

  lemma Validates()
    ensures var s := Requested(Locking, Loaded(0), 0);
            Enabled(s, Create(0, Validate)) && Step(s, Create(0, Validate)) == Requested(Validated, Loaded(0), 0)
  {
  }

  lemma Inserts()
    ensures var s := Requested(Validated, Loaded(0), 0);
            Enabled(s, Create(0, Insert)) && Step(s, Create(0, Insert)) == Requested(Inserted, Loaded(0), 1)
  {
  }

  lemma ReservesLine()
    ensures var s := Requested(Reserving(0), Loaded(0), 1);
            && Enabled(s, Create(0, ReserveLine))
            && Step(s, Create(0, ReserveLine)) == Requested(Reserving(1), Loaded(1), 1)
  {
    assert Loaded(0)[1 := Stock(1, 1)] == Loaded(1);
    assert Dto().items[0].product == 1;
  }

  lemma InsertsOrder() returns (ls: seq<Label>)
    ensures CanRun(Init(Shelf(), 0), ls) && Run(Init(Shelf(), 0), ls) == Requested(Inserted, Loaded(0), 1)
  {
    var s0 := Init(Shelf(), 0);
    ls := Locks();
    Validates();
    Extend(s0, ls, Requested(Locking, Loaded(0), 0), Create(0, Validate), Requested(Validated, Loaded(0), 0));
    ls := ls + [Create(0, Validate)];
    Inserts();
    Extend(s0, ls, Requested(Validated, Loaded(0), 0), Create(0, Insert), Requested(Inserted, Loaded(0), 1));
    ls := ls + [Create(0, Insert)];
  }

  lemma Reserves() returns (ls: seq<Label>)
    ensures CanRun(Init(Shelf(), 0), ls) && Run(Init(Shelf(), 0), ls) == Requested(Reserving(1), Loaded(1), 1)
  {
    var s0 := Init(Shelf(), 0);
    ls := InsertsOrder();
    Extend(s0, ls, Requested(Inserted, Loaded(0), 1), Create(0, SaveItems), Requested(Reserving(0), Loaded(0), 1));
    ls := ls + [Create(0, SaveItems)];
    ReservesLine();
    Extend(s0, ls, Requested(Reserving(0), Loaded(0), 1), Create(0, ReserveLine),
           Requested(Reserving(1), Loaded(1), 1));
    ls := ls + [Create(0, ReserveLine)];
  }

  /** Committed, not yet published. */
  function Unpublished(): State {
    Placed().(copies := map[], requests := map[0 := Request(Dto(), Committed, map[], 1, true)],
              past := Placed().past.(published := map[]))
  }

  lemma OneUnit(items: seq<Line>)
    requires items == Dto().items
    ensures SumFor(items, 1) == 1
  {
    assert items[..|items| - 1] == [];
  }

  lemma ReservesUnit(items: seq<Line>)
    requires SumFor(items, 1) == 1
    ensures ReserveAll(Shelf(), items) == Loaded(1) && Shelf() + Loaded(1) == Loaded(1)
  {
    var reserved := ReserveAll(Shelf(), items);
    assert reserved.Keys == {1} && reserved[1] == Stock(1, 1);
  }

  lemma CommitsTables(dto: CreateDto)
    requires dto.items == Dto().items
    ensures CommitCreate(EmptyDb(Shelf()), Request(dto, Reserving(1), Loaded(1), 1, false))
            == ApplyCreate(EmptyDb(Shelf()), 1, dto)
  {
    OneUnit(dto.items);
    ReservesUnit(dto.items);
  }

  lemma Commits()
    ensures var s := Requested(Reserving(1), Loaded(1), 1);
            Enabled(s, Create(0, Commit)) && Step(s, Create(0, Commit)) == Unpublished()
  {
    CommitsTables(Dto());
  }

  lemma Publishes()
    ensures var s, l := Unpublished(), Create(0, Publish(0, 0));
            Enabled(s, l) && Step(s, l) == Placed()
  {
  }

  lemma Places() returns (ls: seq<Label>)
    ensures CanRun(Init(Shelf(), 0), ls) && Run(Init(Shelf(), 0), ls) == Placed()
  {
    var s0 := Init(Shelf(), 0);
    ls := Reserves();
    Commits();
    Extend(s0, ls, Requested(Reserving(1), Loaded(1), 1), Create(0, Commit), Unpublished());
    ls := ls + [Create(0, Commit)];
    Publishes();
    Extend(s0, ls, Unpublished(), Create(0, Publish(0, 0)), Placed());
    ls := ls + [Create(0, Publish(0, 0))];
  }

  // ---- the race ----

  function Reading(loaded: Option<OrderRow>): Update {
    Update(1, Canceled, NewOrder(Dto()), loaded)
  }

  /** The update has read the order; the delivery is in the given place. */
  function Racing(place: Place, delivered: nat, loaded: Option<OrderRow>): State {
    Placed().(updates := map[0 := Reading(loaded)],
              copies := map[0 := Copy(Message(), place, true)],
              past := Placed().past.(delivered := delivered))
  }

  function At(): Times {
    Times(0, 0, 0)
  }

  function ProcessedDb(): Db {
    ApplyProcess(Placed().db, 0, 1, 0, At())
  }

  /** The worker has committed. */
  function Overtaken(loaded: Option<OrderRow>): State {
    var s := Racing(Done, 1, loaded);
    s.(db := ProcessedDb(),
       past := s.past.(log := [Created(0, 1, Dto()), ProcessedMessage(0, 1, 0, At())], rowOf := map[0 := 0]))
  }

  /** The update has saved, and left this processing time. */
  function Erased(processedAt: Option<Millis>): State {
    var s := Overtaken(None);
    s.(db := ApplyColumns(ProcessedDb(), 1, Canceled, processedAt),
       updates := map[],
       past := s.past.(log := s.past.log + [StatusOverwritten(1, Canceled, Canceled, processedAt)],
                       erased := s.past.erased + {1}))
  }

  lemma ReadsOrder()
    ensures var l := UpdateStatus(0, ReadOrder(1, Canceled));
            Enabled(Placed(), l) && Step(Placed(), l) == Racing(Queued, 0, None)
  {
  }

  lemma Delivers()
    ensures var s, l := Racing(Queued, 0, None), Work(0, Deliver);
            Enabled(s, l) && Step(s, l) == Racing(Fetched, 1, None)
  {
  }

  lemma InsertsDedup()
    ensures var s, l := Racing(Fetched, 1, None), Work(0, InsertDedup);
            Enabled(s, l) && Step(s, l) == Racing(InTx, 1, None)
  {
  }

  lemma Processes(loaded: Option<OrderRow>)
    ensures var s, l := Racing(InTx, 1, loaded), Work(0, CommitProcessed(0, At()));
            Enabled(s, l) && Step(s, l) == Overtaken(loaded)
  {
  }

  lemma LoadsBefore()
    ensures var s, l := Racing(InTx, 1, None), UpdateStatus(0, LoadRow);
            Enabled(s, l) && Step(s, l) == Racing(InTx, 1, Some(NewOrder(Dto())))
  {
  }

  lemma LoadsAfter()
    ensures var s, l := Overtaken(None), UpdateStatus(0, LoadRow);
            Enabled(s, l) && Step(s, l) == Overtaken(Some(ProcessedDb().orders[1]))
  {
  }

  /** The save's effect on the processed row, by what it had loaded. */
  lemma SavesRow(row: OrderRow, loaded: OrderRow)
    requires row == NewOrder(Dto()).(status := Processed, processedAt := Some(0))
    requires loaded == row || loaded == NewOrder(Dto())
    ensures var saved, stamp := Saved(row, Reading(Some(loaded))), if loaded == row then None else Some(0);
            && saved == row.(status := Canceled, processedAt := stamp)
            && SaveEntries(row, Reading(Some(loaded))) == [StatusOverwritten(1, Canceled, Canceled, stamp)]
  {
  }

  /** The one update in flight erases PROCESSED. */
  lemma WritesOver(s: State, update: Update, row: OrderRow, entry: Entry)
    requires s.updates == map[0 := update] && update.loaded.Some? && update.order in s.db.orders
    requires var current := s.db.orders[update.order];
             && Saved(current, update) == row && SaveEntries(current, update) == [entry]
             && current.status == Processed && row.status != Processed
    ensures var l := UpdateStatus(0, WriteRow);
            && Enabled(s, l)
            && Step(s, l) == s.(updates := map[], db := s.db.(orders := s.db.orders[update.order := row]),
                                past := s.past.(log := s.past.log + [entry], erased := s.past.erased + {update.order}))
  {
    assert map[0 := update] - {0} == map[];
  }

  lemma ProcessedRow()
    ensures 1 in ProcessedDb().orders
    ensures ProcessedDb().orders[1] == NewOrder(Dto()).(status := Processed, processedAt := Some(0))
  {
  }

  lemma Writes(loaded: OrderRow, processedAt: Option<Millis>)
    requires loaded == NewOrder(Dto()) || loaded == NewOrder(Dto()).(status := Processed, processedAt := Some(0))
    requires processedAt == if loaded == NewOrder(Dto()) then Some(0) else None
    ensures var s, l := Overtaken(Some(loaded)), UpdateStatus(0, WriteRow);
            Enabled(s, l) && Step(s, l) == Erased(processedAt)
  {
    ProcessedRow();
    var row := ProcessedDb().orders[1];
    SavesRow(row, loaded);
    WritesOver(Overtaken(Some(loaded)), Reading(Some(loaded)), row.(status := Canceled, processedAt := processedAt),
               StatusOverwritten(1, Canceled, Canceled, processedAt));
  }

  lemma Reads() returns (ls: seq<Label>)
    ensures CanRun(Init(Shelf(), 0), ls) && Run(Init(Shelf(), 0), ls) == Racing(InTx, 1, None)
  {
    var s0 := Init(Shelf(), 0);
    ls := Places();
    ReadsOrder();
    Extend(s0, ls, Placed(), UpdateStatus(0, ReadOrder(1, Canceled)), Racing(Queued, 0, None));
    ls := ls + [UpdateStatus(0, ReadOrder(1, Canceled))];
    Delivers();
    Extend(s0, ls, Racing(Queued, 0, None), Work(0, Deliver), Racing(Fetched, 1, None));
    ls := ls + [Work(0, Deliver)];
    InsertsDedup();
    Extend(s0, ls, Racing(Fetched, 1, None), Work(0, InsertDedup), Racing(InTx, 1, None));
    ls := ls + [Work(0, InsertDedup)];
  }

  /** The save loads its row after the worker's commit. */
  lemma LoadsLate() returns (ls: seq<Label>)
    ensures CanRun(Init(Shelf(), 0), ls) && Run(Init(Shelf(), 0), ls) == Erased(None)
  {
    var s0, row := Init(Shelf(), 0), ProcessedDb().orders[1];
    ls := Reads();
    Processes(None);
    Extend(s0, ls, Racing(InTx, 1, None), Work(0, CommitProcessed(0, At())), Overtaken(None));
    ls := ls + [Work(0, CommitProcessed(0, At()))];
    LoadsAfter();
    Extend(s0, ls, Overtaken(None), UpdateStatus(0, LoadRow), Overtaken(Some(row)));
    ls := ls + [UpdateStatus(0, LoadRow)];
    ProcessedRow();
    Writes(row, None);
    Extend(s0, ls, Overtaken(Some(row)), UpdateStatus(0, WriteRow), Erased(None));
    ls := ls + [UpdateStatus(0, WriteRow)];
  }

  /** The save loads its row before the worker's commit, and writes after it. */
  lemma LoadsEarly() returns (ls: seq<Label>)
    ensures CanRun(Init(Shelf(), 0), ls) && Run(Init(Shelf(), 0), ls) == Erased(Some(0))
  {
    var s0, row := Init(Shelf(), 0), NewOrder(Dto());
    ls := Reads();
    LoadsBefore();
    Extend(s0, ls, Racing(InTx, 1, None), UpdateStatus(0, LoadRow), Racing(InTx, 1, Some(row)));
    ls := ls + [UpdateStatus(0, LoadRow)];
    Processes(Some(row));
    Extend(s0, ls, Racing(InTx, 1, Some(row)), Work(0, CommitProcessed(0, At())), Overtaken(Some(row)));
    ls := ls + [Work(0, CommitProcessed(0, At()))];
    Writes(row, Some(0));
    Extend(s0, ls, Overtaken(Some(row)), UpdateStatus(0, WriteRow), Erased(Some(0)));
    ls := ls + [UpdateStatus(0, WriteRow)];
  }

  lemma NotClean(s: State, i: nat)
    requires i < |s.past.log| && s.past.log[i].StatusOverwritten?
    ensures !Clean(s.past.log)
  {
  }

  lemma BreaksSerial(s0: State, ls: seq<Label>, stocks: map<int, Stock>, clock: Millis)
    requires s0 == Init(stocks, clock) && CanRun(s0, ls) && !Clean(Run(s0, ls).past.log)
    ensures !AllTimely(s0, ls) && Replay(EmptyDb(stocks), Claimed(Run(s0, ls).past.log)) != Some(Run(s0, ls).db)
  {
    InvInit(stocks, clock);
    CleanRun(stocks, s0, ls);
    Serialisability(stocks, clock, ls);
  }

  lemma BreaksMatch(s0: State, ls: seq<Label>, stocks: map<int, Stock>, clock: Millis)
    requires s0 == Init(stocks, clock) && CanRun(s0, ls) && Run(s0, ls).past.erased != {}
    ensures !NoneErases(s0, ls)
    ensures var s := Run(s0, ls); !Bijection(OrderOf(s), ProcessedOrders(s.db.orders))
  {
    InvInit(stocks, clock);
    ErasedRun(stocks, s0, ls);
    assert Reachable(stocks, Run(s0, ls));
    ExactlyOnce(stocks, Run(s0, ls));
  }

  /** The run in which a cancellation erases a processing: the message is processed and its
      outbox row written, the order is CANCELED without a processing time, and neither the
      one-to-one correspondence nor the serial execution holds. */
  lemma SaveErasesProcessing() returns (ls: seq<Label>)
    ensures CanRun(Init(Shelf(), 0), ls)
    ensures var s := Run(Init(Shelf(), 0), ls);
            && s.db.processed == {0} && s.db.outbox.Keys == {0} && s.db.outbox[0].orderId == 1
            && s.db.orders.Keys == {1} && s.db.orders[1].status == Canceled && s.db.orders[1].processedAt == None
            && !Bijection(OrderOf(s), ProcessedOrders(s.db.orders))
            && Replay(EmptyDb(Shelf()), Claimed(s.past.log)) != Some(s.db)
    ensures !AllTimely(Init(Shelf(), 0), ls) && !NoneErases(Init(Shelf(), 0), ls)
  {
    ls := LoadsLate();
    NotClean(Erased(None), 2);
    BreaksSerial(Init(Shelf(), 0), ls, Shelf(), 0);
    BreaksMatch(Init(Shelf(), 0), ls, Shelf(), 0);
  }

  lemma {:induction false} EndStamped(s: State, ls: seq<Label>)
    requires CanRun(s, ls) && StampedAlong(s, ls)
    ensures AllStamped(Run(s, ls).db.orders)
    decreases |ls|
  {
    if ls != [] { EndStamped(Step(s, ls[0]), ls[1..]); }
  }

  lemma BreaksStamp(s0: State, ls: seq<Label>, stocks: map<int, Stock>, clock: Millis, o: nat)
    requires s0 == Init(stocks, clock) && CanRun(s0, ls)
    requires var orders := Run(s0, ls).db.orders; o in orders && !Stamped(orders[o])
    ensures !StampedAlong(s0, ls) && !NoneUnstamps(s0, ls)
  {
    if StampedAlong(s0, ls) { EndStamped(s0, ls); }
    StampedExactly(stocks, clock, ls);
  }

  /** The run in which a cancellation leaves the processing time of the status it erases: the
      save found no difference in that column, as it had loaded the row before the worker's
      commit. */
  lemma SaveLeavesStamp() returns (ls: seq<Label>)
    ensures CanRun(Init(Shelf(), 0), ls)
    ensures var s := Run(Init(Shelf(), 0), ls);
            s.db.orders.Keys == {1} && s.db.orders[1].status == Canceled && s.db.orders[1].processedAt == Some(0)
    ensures !StampedAlong(Init(Shelf(), 0), ls) && !NoneUnstamps(Init(Shelf(), 0), ls)
  {
    ls := LoadsEarly();
    BreaksStamp(Init(Shelf(), 0), ls, Shelf(), 0, 1);
  }
}
