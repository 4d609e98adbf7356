/** The arithmetic of stock reservation: what one accepted create adds, over all runs,
    and exactly which orders can never oversell. */
module Reservations {
  import opened Basics
  import opened Tables
  import opened Pipeline
  import opened Invariants
  import opened Theorems

  predicate Positive(items: seq<Line>) {
    forall i :: 0 <= i < |items| ==> items[i].amount >= 1
  }

  function LinesFor(items: seq<Line>, p: int): nat {
    if items == [] then 0
    else LinesFor(items[..|items| - 1], p) + if items[|items| - 1].product == p then 1 else 0
  }

  /** The units of a product are the sum of its lines' amounts. */
  lemma {:induction false} SumExactly(line: Line, items: seq<Line>, more: seq<Line>, p: int)
    ensures SumFor([], p) == 0 && SumFor([line], p) == if line.product == p then line.amount else 0
    ensures SumFor(items + more, p) == SumFor(items, p) + SumFor(more, p)
  {
    assert [line][..0] == [];
    if more == [] {
      assert items + more == items;
    } else {
      var n := |more| - 1;
      SumExactly(line, items, more[..n], p);
      assert (items + more)[..|items| + n] == items + more[..n];
    }
  }

  /** Every line fits on its own, so k lines of a product take at most k times what is free. */
  lemma {:induction false} SumBound(stocks: map<int, Stock>, items: seq<Line>, p: int)
    requires Positive(items) && Available(stocks, items) && p in stocks
    ensures LinesFor(items, p) <= SumFor(items, p)
    ensures SumFor(items, p) <= LinesFor(items, p) * (stocks[p].stock - stocks[p].reserved)
  {
    if items != [] {
      var n := |items| - 1;
      assert forall i :: 0 <= i < n ==> items[..n][i] == items[i];
      SumBound(stocks, items[..n], p);
      assert LineAvailable(stocks, items[n]);
      var free := stocks[p].stock - stocks[p].reserved;
      assert (LinesFor(items[..n], p) + 1) * free == LinesFor(items[..n], p) * free + free;
    }
  }

  /** An accepted create raises reserved by exactly its lines' sum and leaves stock alone. */
  lemma CreateRaises(db: Db, r: nat, id: nat, dto: CreateDto, p: int)
    requires WellFormed(dto) && Accepts(db, Created(r, id, dto)) && p in db.stocks
    ensures var before, after := db.stocks[p], Apply(db, Created(r, id, dto)).stocks[p];
            && after.stock == before.stock
            && after.reserved == before.reserved + SumFor(dto.items, p)
            && before.reserved + LinesFor(dto.items, p) <= after.reserved
            && after.reserved <= before.reserved + LinesFor(dto.items, p) * (before.stock - before.reserved)
  {
    SumBound(db.stocks, dto.items, p);
  }

  // ---- overselling ----

  predicate Healthy(stocks: map<int, Stock>) {
    forall p :: p in stocks ==> stocks[p].reserved <= stocks[p].stock
  }

  predicate Distinct(items: seq<Line>) {
    forall i, j :: 0 <= i < j < |items| ==> items[i].product != items[j].product
  }

  lemma {:induction false} DistinctOnce(items: seq<Line>, p: int)
    requires Distinct(items)
    ensures LinesFor(items, p) <= 1
    ensures LinesFor(items, p) == 1 ==> exists i :: 0 <= i < |items| && items[i].product == p
  {
    if items != [] {
      var n := |items| - 1;
      assert forall i :: 0 <= i < n ==> items[..n][i] == items[i];
      DistinctOnce(items[..n], p);
    }
  }

  lemma {:induction false} SumOfOne(items: seq<Line>, i: nat)
    requires Positive(items) && i < |items|
    ensures SumFor(items, items[i].product) >= items[i].amount
  {
    var n := |items| - 1;
    assert forall k :: 0 <= k < n ==> items[..n][k] == items[k];
    if i < n { SumOfOne(items[..n], i); } else { SumNonnegative(items[..n], items[i].product); }
  }

  lemma {:induction false} SumNonnegative(items: seq<Line>, p: int)
    requires Positive(items)
    ensures SumFor(items, p) >= 0
  {
    if items != [] { SumNonnegative(items[..|items| - 1], p); }
  }

  lemma {:induction false} SumOfTwo(items: seq<Line>, i: nat, j: nat)
    requires Positive(items) && i < j < |items| && items[i].product == items[j].product
    ensures SumFor(items, items[i].product) >= items[i].amount + items[j].amount
  {
    var n := |items| - 1;
    assert forall k :: 0 <= k < n ==> items[..n][k] == items[k];
    if j < n { SumOfTwo(items[..n], i, j); } else { SumOfOne(items[..n], i); }
  }

  /** On every healthy stock that accepts the order, reserving it leaves the stock healthy. */
  ghost predicate NeverOversells(items: seq<Line>) {
    forall stocks :: Healthy(stocks) && Available(stocks, items) ==> Healthy(ReserveAll(stocks, items))
  }

  /** One unit of q short of what the whole order needs. */
  function OneShort(items: seq<Line>, q: int): map<int, Stock> {
    map p | p in Products(items) :: Stock(SumFor(items, p) - if p == q then 1 else 0, 0)
  }

  /** The lock and the validation prevent overselling for exactly the orders that name no
      product twice; for every other one there is stock it oversells. */
  lemma OversellExactly(items: seq<Line>)
    requires Positive(items)
    ensures NeverOversells(items) <==> Distinct(items)
  {
    if Distinct(items) {
      forall stocks | Healthy(stocks) && Available(stocks, items)
        ensures Healthy(ReserveAll(stocks, items))
      {
        DistinctKeepsHealthy(stocks, items);
      }
    } else {
      var i, j :| 0 <= i < j < |items| && items[i].product == items[j].product;
      RepeatedOversells(items, i, j);
    }
  }

  lemma DistinctKeepsHealthy(stocks: map<int, Stock>, items: seq<Line>)
    requires Positive(items) && Distinct(items) && Healthy(stocks) && Available(stocks, items)
    ensures Healthy(ReserveAll(stocks, items))
  {
    forall p | p in stocks
      ensures stocks[p].reserved + SumFor(items, p) <= stocks[p].stock
    {
      SumBound(stocks, items, p);
      DistinctOnce(items, p);
    }
  }

  lemma RepeatedOversells(items: seq<Line>, i: nat, j: nat)
    requires Positive(items) && i < j < |items| && items[i].product == items[j].product
    ensures var stocks := OneShort(items, items[i].product);
            Healthy(stocks) && Available(stocks, items) && !Healthy(ReserveAll(stocks, items))
  {
    var q := items[i].product;
    var stocks := OneShort(items, q);
    SumOfTwo(items, i, j);
    assert q in stocks;
    assert ReserveAll(stocks, items)[q].reserved == ReserveAll(stocks, items)[q].stock + 1;
    forall p | p in stocks
      ensures stocks[p].stock >= 0
    {
      SumNonnegative(items, p);
    }
    forall k | 0 <= k < |items|
      ensures LineAvailable(stocks, items[k])
    {
      assert items[k].product in Products(items);
      if items[k].product != q {
        SumOfOne(items, k);
      } else if k < j {
        SumOfTwo(items, k, j);
      } else if k > j {
        SumOfTwo(items, j, k);
      }
    }
  }

  // ---- over runs ----

  /** Units of p reserved by the creates in the log. */
  function TotalReserved(log: seq<Entry>, p: int): int {
    if log == [] then 0
    else
      var e := log[|log| - 1];
      TotalReserved(log[..|log| - 1], p) + if e.Created? then SumFor(e.dto.items, p) else 0
  }

  lemma {:induction false} ReplayReserved(db0: Db, log: seq<Entry>, db: Db, p: int)
    requires Replay(db0, log) == Some(db)
    ensures p in db.stocks <==> p in db0.stocks
    ensures p in db.stocks ==>
      && db.stocks[p].stock == db0.stocks[p].stock
      && db.stocks[p].reserved == db0.stocks[p].reserved + TotalReserved(log, p)
  {
    if log != [] { ReplayReserved(db0, log[..|log| - 1], Replay(db0, log[..|log| - 1]).value, p); }
  }

  /** In every reachable state the reserved units are the initial ones plus those of the
      committed creates, each counted once. */
  lemma ReservedConserved(stocks: map<int, Stock>, s: State, p: int)
    requires Reachable(stocks, s) && p in stocks
    ensures p in s.db.stocks && s.db.stocks[p].stock == stocks[p].stock
    ensures s.db.stocks[p].reserved == stocks[p].reserved + TotalReserved(s.past.log, p)
  {
    CommittedSerially(stocks, s);
    ReplayReserved(EmptyDb(stocks), s.past.log, s.db, p);
  }

  lemma {:induction false} ReplayHealthy(db0: Db, log: seq<Entry>, db: Db)
    requires Replay(db0, log) == Some(db) && Healthy(db0.stocks)
    requires forall i :: 0 <= i < |log| && log[i].Created? ==> Distinct(log[i].dto.items) && Positive(log[i].dto.items)
    ensures Healthy(db.stocks)
  {
    if log != [] {
      var n := |log| - 1;
      var before := Replay(db0, log[..n]).value;
      assert forall i :: 0 <= i < n ==> log[..n][i] == log[i];
      ReplayHealthy(db0, log[..n], before);
      if log[n].Created? { DistinctKeepsHealthy(before.stocks, log[n].dto.items); }
    }
  }

  /** Concurrent creates never oversell as long as no committed order repeats a product. */
  lemma NoOversell(stocks: map<int, Stock>, s: State)
    requires Reachable(stocks, s) && Healthy(stocks)
    requires forall r :: r in s.requests && s.requests[r].committed ==> Distinct(s.requests[r].dto.items)
    ensures Healthy(s.db.stocks)
  {
    ReachableInv(stocks, s);
    CommittedPositive(s);
    ReplayHealthy(EmptyDb(stocks), s.past.log, s.db);
  }

  lemma CommittedPositive(s: State)
    requires TxInv(s)
    requires forall r :: r in s.requests && s.requests[r].committed ==> Distinct(s.requests[r].dto.items)
    ensures forall i :: 0 <= i < |s.past.log| && s.past.log[i].Created? ==>
              Distinct(s.past.log[i].dto.items) && Positive(s.past.log[i].dto.items)
  {
    forall i | 0 <= i < |s.past.log| && s.past.log[i].Created?
      ensures WellFormed(s.past.log[i].dto) && Distinct(s.past.log[i].dto.items)
    {
      var r := s.past.log[i].request;
      assert r in s.requests && s.requests[r].committed && s.requests[r].dto == s.past.log[i].dto;
    }
  }
}
