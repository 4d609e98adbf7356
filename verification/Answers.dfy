/** What a run tells about the answers of its requests, label by label. */
module Answers {
  import opened Basics
  import opened Tables
  import opened Pipeline
  import opened Transactions
  import opened Invariants
  import opened Theorems

  /** The payment service answered request r with result. */
  ghost predicate Paid(ls: seq<Label>, r: nat, result: Payment) {
    exists i :: 0 <= i < |ls| && ls[i] == Create(r, Pay(result))
  }

  /** Request r failed, before or after its commit. */
  ghost predicate Broke(ls: seq<Label>, r: nat) {
    exists i :: 0 <= i < |ls| && (ls[i] == Create(r, Fail) || ls[i] == Create(r, FailAfterCommit))
  }

  /** What the labels so far say about the request. */
  ghost predicate AnswerOk(q: Request, r: nat, ls: seq<Label>) {
    if !q.phase.Finished? then
      (forall result :: !Paid(ls, r, result)) && !Broke(ls, r)
    else
      && (Paid(ls, r, Authorized) <==> q.phase.outcome == Returned(q.orderId, true))
      && (Paid(ls, r, Authorized) <==> q.phase.outcome.Returned? && q.phase.outcome.created)
      && (Paid(ls, r, DeadlineExceeded) <==> q.phase.outcome == Threw(Timeout))
      && (Paid(ls, r, Unavailable) <==> q.phase.outcome == Threw(PaymentDown))
      && (Paid(ls, r, OtherError) || Broke(ls, r) <==> q.phase.outcome == Threw(Internal))
      && !(Paid(ls, r, OtherError) && Broke(ls, r))
  }

  lemma PaidSnoc(ls: seq<Label>, l: Label, r: nat)
    ensures forall result :: Paid(ls + [l], r, result) <==> Paid(ls, r, result) || l == Create(r, Pay(result))
    ensures Broke(ls + [l], r) <==> Broke(ls, r) || l == Create(r, Fail) || l == Create(r, FailAfterCommit)
  {
    forall result
      ensures Paid(ls + [l], r, result) <==> Paid(ls, r, result) || l == Create(r, Pay(result))
    {
      if Paid(ls, r, result) {
        var i :| 0 <= i < |ls| && ls[i] == Create(r, Pay(result));
        assert (ls + [l])[i] == ls[i];
      }
      if l == Create(r, Pay(result)) { assert (ls + [l])[|ls|] == l; }
    }
    if Broke(ls, r) {
      var i :| 0 <= i < |ls| && (ls[i] == Create(r, Fail) || ls[i] == Create(r, FailAfterCommit));
      assert (ls + [l])[i] == ls[i];
    }
    if l == Create(r, Fail) || l == Create(r, FailAfterCommit) { assert (ls + [l])[|ls|] == l; }
  }

  /** One step of the request itself. */
  lemma AnswerCreate(s: State, r: nat, step: CreateStep, ls: seq<Label>)
    requires CanCreate(s, r, step) && RequestOk(s.requests[r], s.db.orders, s.nextOrderId)
    requires AnswerOk(s.requests[r], r, ls)
    ensures AnswerOk(Local(s, s.requests[r], step), r, ls + [Create(r, step)])
  {
    PaidSnoc(ls, Create(r, step), r);
  }

  lemma AnswerElse(q: Request, r: nat, l: Label, ls: seq<Label>)
    requires AnswerOk(q, r, ls) && !(l.Create? && l.request == r)
    ensures AnswerOk(q, r, ls + [l])
  {
    PaidSnoc(ls, l, r);
  }

  /** No label has spoken of a request that has not arrived. */
  ghost predicate Unheard(ls: seq<Label>, r: nat) {
    forall i :: 0 <= i < |ls| ==> !(ls[i].Create? && ls[i].request == r)
  }

  ghost predicate AnswersOk(requests: map<nat, Request>, ls: seq<Label>) {
    && (forall r :: r in requests ==> AnswerOk(requests[r], r, ls))
    && (forall r :: r !in requests ==> Unheard(ls, r))
  }

  lemma RequestsElse(s: State, l: Label)
    requires Enabled(s, l) && !l.Create? && !l.Arrive?
    ensures Step(s, l).requests == s.requests
  {
  }

  lemma AnswersStep(s: State, l: Label, ls: seq<Label>)
    requires Enabled(s, l) && AnswersOk(s.requests, ls) && OrderInv(s.requests, s.db.orders, s.nextOrderId)
    ensures AnswersOk(Step(s, l).requests, ls + [l])
  {
    var s' := Step(s, l);
    if !l.Create? && !l.Arrive? { RequestsElse(s, l); }
    forall r | r in s'.requests
      ensures AnswerOk(s'.requests[r], r, ls + [l])
    {
      if l.Create? && l.request == r {
        AnswerCreate(s, r, l.create, ls);
      } else if r in s.requests {
        AnswerElse(s.requests[r], r, l, ls);
      } else {
        assert Unheard(ls, r);
        AnswerElse(s'.requests[r], r, l, ls);
      }
    }
  }

  lemma {:induction false} AnswersRun(stocks: map<int, Stock>, clock: Millis, ls: seq<Label>)
    requires CanRun(Init(stocks, clock), ls)
    ensures AnswersOk(Run(Init(stocks, clock), ls).requests, ls)
    decreases |ls|
  {
    if ls != [] {
      var front, l := ls[..|ls| - 1], ls[|ls| - 1];
      assert ls == front + [l];
      RunSplit(Init(stocks, clock), front, [l]);
      AnswersRun(stocks, clock, front);
      var s := Run(Init(stocks, clock), front);
      assert Reachable(stocks, s);
      ReachableOrders(stocks, s);
      AnswersStep(s, l, front);
      RunOne(s, l);
    }
  }

  /** Along every run a finished request answered as its payment did: created exactly when it
      was authorized, a timeout exactly for an exceeded deadline, a missing service exactly for
      an unavailable one, and an internal error exactly for any other payment error or for a
      failure of its own. Anything else was answered before the payment. */
  lemma AnswersExactly(stocks: map<int, Stock>, clock: Millis, ls: seq<Label>, r: nat)
    requires CanRun(Init(stocks, clock), ls)
    requires var s := Run(Init(stocks, clock), ls); r in s.requests && s.requests[r].phase.Finished?
    ensures var q := Run(Init(stocks, clock), ls).requests[r]; var outcome := q.phase.outcome;
            && (outcome == Returned(q.orderId, true) <==> Create(r, Pay(Authorized)) in ls)
            && (outcome.Returned? && outcome.created <==> Create(r, Pay(Authorized)) in ls)
            && (outcome == Threw(Timeout) <==> Create(r, Pay(DeadlineExceeded)) in ls)
            && (outcome == Threw(PaymentDown) <==> Create(r, Pay(Unavailable)) in ls)
            && (outcome == Threw(Internal) <==>
                  Create(r, Pay(OtherError)) in ls || Create(r, Fail) in ls || Create(r, FailAfterCommit) in ls)
  {
    AnswersRun(stocks, clock, ls);
    var q := Run(Init(stocks, clock), ls).requests[r];
    assert AnswerOk(q, r, ls);
    assert forall result :: Paid(ls, r, result) <==> Create(r, Pay(result)) in ls;
    assert Broke(ls, r) <==> Create(r, Fail) in ls || Create(r, FailAfterCommit) in ls;
  }
}
