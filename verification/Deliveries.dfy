/** What every step keeps about messages: they name committed orders, each takes effect
    once, none is lost, and the number of deliveries is bounded. */
module Deliveries {
  import opened Tables
  import opened Pipeline

  // ---- messages name committed orders ----

  ghost predicate MsgOk(msg: Msg, published: map<MessageId, nat>) {
    msg.id in published && published[msg.id] == msg.orderId && 1 <= msg.attempt <= MAX_ATTEMPTS && !msg.alwaysFail
  }

  ghost predicate MessageInv(requests: map<nat, Request>, orders: set<nat>, published: map<MessageId, nat>,
                             copies: map<nat, Copy>, dead: seq<Msg>) {
    && (forall m :: m in published ==> published[m] in orders)
    && (forall m1, m2 :: m1 in published && m2 in published && published[m1] == published[m2] ==> m1 == m2)
    && (forall r, m :: r in requests && m in published && requests[r].phase.Committed? ==>
        published[m] != requests[r].orderId)
    && (forall c :: c in copies ==> MsgOk(copies[c].msg, published))
    && (forall i :: 0 <= i < |dead| ==> MsgOk(dead[i], published) && dead[i].attempt == MAX_ATTEMPTS)
  }

  // ---- one effect per message ----

  ghost predicate ProcessedFor(o: nat, processed: set<MessageId>, published: map<MessageId, nat>) {
    exists m :: m in published && m in processed && published[m] == o
  }

  /** An order whose message was processed is PROCESSED, unless a save took that back. */
  ghost predicate OrderOk(o: nat, order: OrderRow, processed: set<MessageId>, published: map<MessageId, nat>,
                          erased: set<nat>) {
    && (ProcessedFor(o, processed, published) <==> order.status == Processed || o in erased)
    && !(order.status == Processed && o in erased)
  }

  ghost predicate CopyOk(copy: Copy, processed: set<MessageId>) {
    && (copy.place.InTx? ==> copy.msg.id !in processed)
    && (copy.place.Done? ==> copy.msg.id in processed)
  }

  ghost predicate OneTx(copies: map<nat, Copy>) {
    forall c1, c2 :: c1 in copies && c2 in copies && c1 != c2 && copies[c1].place.InTx? && copies[c2].place.InTx? ==>
      copies[c1].msg.id != copies[c2].msg.id
  }

  /** rowOf maps the processed messages one-to-one onto the outbox rows. */
  ghost predicate RowsMatch(processed: set<MessageId>, outbox: map<nat, OutboxRow>,
                            published: map<MessageId, nat>, rowOf: map<MessageId, nat>) {
    && rowOf.Keys == processed <= published.Keys
    && (forall m :: m in rowOf ==> rowOf[m] in outbox && outbox[rowOf[m]].orderId == published[m])
    && (forall m1, m2 :: m1 in rowOf && m2 in rowOf && rowOf[m1] == rowOf[m2] ==> m1 == m2)
    && (forall r :: r in outbox ==> exists m :: m in rowOf && rowOf[m] == r)
  }

  ghost predicate OrdersMatch(orders: map<nat, OrderRow>, processed: set<MessageId>, published: map<MessageId, nat>,
                              erased: set<nat>) {
    && erased <= orders.Keys
    && (forall m :: m in processed ==> m in published && published[m] in orders)
    && (forall o :: o in orders ==> OrderOk(o, orders[o], processed, published, erased))
  }

  /** The unique index on processed_messages lets one open transaction per message through. */
  ghost predicate DedupInv(copies: map<nat, Copy>, processed: set<MessageId>) {
    && (forall c :: c in copies ==> CopyOk(copies[c], processed))
    && OneTx(copies)
  }

  // ---- no message is lost ----

  ghost predicate Dead(dead: seq<Msg>, m: MessageId) {
    exists i :: 0 <= i < |dead| && dead[i].id == m
  }

  /** The copy still stands for its message: nothing has been made of it yet. */
  predicate Live(copy: Copy) {
    copy.attached && !copy.place.Done? && !copy.place.Forwarded?
  }

  ghost predicate HasLive(copies: map<nat, Copy>, m: MessageId) {
    exists c :: c in copies && copies[c].msg.id == m && Live(copies[c])
  }

  ghost predicate LossInv(published: map<MessageId, nat>, processed: set<MessageId>, copies: map<nat, Copy>,
                          dead: seq<Msg>) {
    forall m :: m in published ==> m in processed || Dead(dead, m) || HasLive(copies, m)
  }

  /** No message is in two places: live in two copies, or in one and settled, or settled twice. */
  ghost predicate OnePlace(processed: set<MessageId>, copies: map<nat, Copy>, dead: seq<Msg>) {
    && (forall c1, c2 :: c1 in copies && c2 in copies && c1 != c2 && Live(copies[c1]) && Live(copies[c2]) ==>
          copies[c1].msg.id != copies[c2].msg.id)
    && (forall c :: c in copies && Live(copies[c]) ==> copies[c].msg.id !in processed)
    && (forall c, i :: c in copies && 0 <= i < |dead| && Live(copies[c]) ==> copies[c].msg.id != dead[i].id)
    && (forall i :: 0 <= i < |dead| ==> dead[i].id !in processed)
    && (forall i, j :: 0 <= i < j < |dead| ==> dead[i].id != dead[j].id)
  }

  /** Without redeliveries every handler has its channel, and nothing was doubled. */
  ghost predicate NoneBack(copies: map<nat, Copy>, redelivered: nat, doubled: bool) {
    redelivered == 0 ==> !doubled && forall c :: c in copies ==> copies[c].attached
  }

  // ---- the delivery bound ----

  /** Deliveries a copy can still cause: a queued attempt a weighs 4 - a. */
  function Weight(copy: Copy): int {
    if !copy.attached then 0
    else
    match copy.place
    case Queued => MAX_ATTEMPTS + 1 - copy.msg.attempt
    case Done => 0
    case Forwarded => 0
    case _ => MAX_ATTEMPTS - copy.msg.attempt
  }

  ghost function Potential(copies: map<nat, Copy>): int
    decreases |copies|
  {
    if copies == map[] then 0
    else
      var c :| c in copies;
      assert |copies - {c}| < |copies| by { assert (copies - {c}).Keys == copies.Keys - {c}; }
      Weight(copies[c]) + Potential(copies - {c})
  }

  lemma {:induction false} PotentialSplit(copies: map<nat, Copy>, c: nat)
    requires c in copies
    ensures Potential(copies) == Weight(copies[c]) + Potential(copies - {c})
    decreases |copies|
  {
    var c0 :| c0 in copies && Potential(copies) == Weight(copies[c0]) + Potential(copies - {c0});
    if c0 != c {
      assert (copies - {c0}).Keys == copies.Keys - {c0};
      PotentialSplit(copies - {c0}, c);
      PotentialSplit(copies - {c}, c0);
      assert copies - {c0} - {c} == copies - {c} - {c0};
    }
  }

  lemma PotentialAdd(copies: map<nat, Copy>, c: nat, copy: Copy)
    requires c !in copies
    ensures Potential(copies[c := copy]) == Potential(copies) + Weight(copy)
  {
    PotentialSplit(copies[c := copy], c);
    assert copies[c := copy] - {c} == copies;
  }

  lemma PotentialChange(copies: map<nat, Copy>, c: nat, copy: Copy)
    requires c in copies
    ensures Potential(copies[c := copy]) == Potential(copies) - Weight(copies[c]) + Weight(copy)
  {
    PotentialSplit(copies, c);
    PotentialSplit(copies[c := copy], c);
    assert copies[c := copy] - {c} == copies - {c};
  }

  lemma {:induction false} PotentialNonnegative(copies: map<nat, Copy>)
    requires forall c :: c in copies ==> copies[c].msg.attempt <= MAX_ATTEMPTS
    ensures Potential(copies) >= 0
    decreases |copies|
  {
    if copies != map[] {
      var c :| c in copies && Potential(copies) == Weight(copies[c]) + Potential(copies - {c});
      assert (copies - {c}).Keys == copies.Keys - {c};
      PotentialNonnegative(copies - {c});
      assert Weight(copies[c]) >= 0;
    }
  }

  ghost predicate BoundInv(copies: map<nat, Copy>, delivered: nat, published: nat, redelivered: nat) {
    delivered + Potential(copies) <= MAX_ATTEMPTS * (published + redelivered)
  }

  // ---- steps ----

  lemma BoundAfterWork(s: State, c: nat, step: WorkStep)
    requires CanWork(s, c, step) && BoundInv(s.copies, s.past.delivered, |s.past.published|, s.past.redelivered)
    requires 1 <= s.copies[c].msg.attempt <= MAX_ATTEMPTS
    ensures var s' := DoWork(s, c, step);
            BoundInv(s'.copies, s'.past.delivered, |s'.past.published|, s'.past.redelivered)
  {
    var s' := DoWork(s, c, step);
    match step
    case Ack => PotentialSplit(s.copies, c);
    case Vanish => PotentialSplit(s.copies, c);
    case Detach(c') =>
      PotentialChange(s.copies, c, s.copies[c].(attached := false));
      PotentialAdd(s.copies[c := s.copies[c].(attached := false)], c', s'.copies[c']);
    case Forward(c') =>
      var moved := Move(s.copies, c, Forwarded);
      PotentialChange(s.copies, c, moved[c]);
      if s.copies[c].msg.attempt < MAX_ATTEMPTS { PotentialAdd(moved, c', s'.copies[c']); }
    case _ => PotentialChange(s.copies, c, s'.copies[c]);
  }

  lemma BoundAfterPublish(s: State, r: nat, m: MessageId, c: nat)
    requires CanCreate(s, r, Publish(m, c))
    requires BoundInv(s.copies, s.past.delivered, |s.past.published|, s.past.redelivered)
    ensures var s' := DoCreate(s, r, Publish(m, c));
        BoundInv(s'.copies, s'.past.delivered, |s'.past.published|, s'.past.redelivered)
  {
    var s' := DoCreate(s, r, Publish(m, c));
    PotentialAdd(s.copies, c, s'.copies[c]);
    assert s'.past.published.Keys == s.past.published.Keys + {m};
  }

  lemma MessageFrame(requests: map<nat, Request>, orders: set<nat>, published: map<MessageId, nat>,
                     copies: map<nat, Copy>, copies': map<nat, Copy>, dead: seq<Msg>, dead': seq<Msg>)
    requires MessageInv(requests, orders, published, copies, dead)
    requires forall c :: c in copies' ==> MsgOk(copies'[c].msg, published)
    requires dead' == dead ||
      (|dead'| == |dead| + 1 && dead'[..|dead|] == dead
       && MsgOk(dead'[|dead|], published) && dead'[|dead|].attempt == MAX_ATTEMPTS)
    ensures MessageInv(requests, orders, published, copies', dead')
  {
    assert forall i :: 0 <= i < |dead| && dead' != dead ==> dead'[i] == dead'[..|dead|][i];
  }

  lemma MessageAfterWork(s: State, c: nat, step: WorkStep)
    requires CanWork(s, c, step)
    requires MessageInv(s.requests, s.db.orders.Keys, s.past.published, s.copies, s.dead)
    ensures var s' := DoWork(s, c, step);
            MessageInv(s'.requests, s'.db.orders.Keys, s'.past.published, s'.copies, s'.dead)
  {
    var s' := DoWork(s, c, step);
    assert MsgOk(s.copies[c].msg, s.past.published);
    assert s'.db.orders.Keys == s.db.orders.Keys;
    forall x | x in s'.copies
      ensures MsgOk(s'.copies[x].msg, s.past.published)
    {
      assert x in s.copies ==> MsgOk(s.copies[x].msg, s.past.published);
    }
    MessageFrame(s.requests, s.db.orders.Keys, s.past.published, s.copies, s'.copies, s.dead, s'.dead);
  }

  lemma DedupAfterWork(s: State, c: nat, step: WorkStep)
    requires CanWork(s, c, step) && DedupInv(s.copies, s.db.processed)
    ensures var s' := DoWork(s, c, step); DedupInv(s'.copies, s'.db.processed)
  {
    var s' := DoWork(s, c, step);
    var msg := s.copies[c].msg;
    assert CopyOk(s.copies[c], s.db.processed);
    assert step.InsertDedup? ==> forall x :: x in s.copies && s.copies[x].place.InTx? ==> s.copies[x].msg.id != msg.id;
    forall x | x in s'.copies
      ensures CopyOk(s'.copies[x], s'.db.processed)
      ensures x in s.copies || s'.copies[x].place == Queued
      ensures x != c && x in s.copies ==> s'.copies[x] == s.copies[x]
    {
      if x in s.copies { assert CopyOk(s.copies[x], s.db.processed); }
    }
  }

  lemma RowsAfterProcessed(s: State, c: nat, row: nat, at: Times)
    requires CanWork(s, c, CommitProcessed(row, at))
    requires RowsMatch(s.db.processed, s.db.outbox, s.past.published, s.past.rowOf)
    requires MsgOk(s.copies[c].msg, s.past.published) && s.copies[c].msg.id !in s.db.processed
    ensures var s' := DoWork(s, c, CommitProcessed(row, at));
        RowsMatch(s'.db.processed, s'.db.outbox, s'.past.published, s'.past.rowOf)
  {
    var s' := DoWork(s, c, CommitProcessed(row, at));
    var m0 := s.copies[c].msg.id;
    var rowOf, rowOf' := s.past.rowOf, s'.past.rowOf;
    assert rowOf' == rowOf[m0 := row];
    forall r | r in s'.db.outbox
      ensures exists m :: m in rowOf' && rowOf'[m] == r
    {
      if r == row {
        assert m0 in rowOf' && rowOf'[m0] == r;
      } else {
        var m :| m in rowOf && rowOf[m] == r;
        assert m in rowOf' && rowOf'[m] == r;
      }
    }
  }

  lemma OrdersAfterProcessed(s: State, c: nat, row: nat, at: Times)
    requires CanWork(s, c, CommitProcessed(row, at))
    requires OrdersMatch(s.db.orders, s.db.processed, s.past.published, s.past.erased)
    requires MessageInv(s.requests, s.db.orders.Keys, s.past.published, s.copies, s.dead)
    requires s.copies[c].msg.id !in s.db.processed
    ensures var s' := DoWork(s, c, CommitProcessed(row, at));
            OrdersMatch(s'.db.orders, s'.db.processed, s'.past.published, s'.past.erased)
  {
    var s' := DoWork(s, c, CommitProcessed(row, at));
    var msg := s.copies[c].msg;
    assert MsgOk(msg, s.past.published);
    forall o | o in s'.db.orders
      ensures OrderOk(o, s'.db.orders[o], s'.db.processed, s'.past.published, s'.past.erased)
    {
      assert OrderOk(o, s.db.orders[o], s.db.processed, s.past.published, s.past.erased);
      ProcessedForAfter(s, msg, o);
    }
  }

  /** Each order has one message, so the commit adds exactly that order. */
  lemma ProcessedForAfter(s: State, msg: Msg, o: nat)
    requires MessageInv(s.requests, s.db.orders.Keys, s.past.published, s.copies, s.dead)
    requires MsgOk(msg, s.past.published)
    requires msg.id !in s.db.processed
    ensures ProcessedFor(o, s.db.processed + {msg.id}, s.past.published)
            <==> ProcessedFor(o, s.db.processed, s.past.published) || o == msg.orderId
    ensures !ProcessedFor(msg.orderId, s.db.processed, s.past.published)
  {
    if ProcessedFor(o, s.db.processed, s.past.published) {
      var m :| m in s.past.published && m in s.db.processed && s.past.published[m] == o;
      assert m in s.db.processed + {msg.id};
    }
    if o == msg.orderId { assert msg.id in s.db.processed + {msg.id}; }
  }

  lemma LossAfterWork(s: State, c: nat, step: WorkStep)
    requires CanWork(s, c, step) && LossInv(s.past.published, s.db.processed, s.copies, s.dead)
    ensures var s' := DoWork(s, c, step); LossInv(s'.past.published, s'.db.processed, s'.copies, s'.dead)
  {
    var s' := DoWork(s, c, step);
    forall m | m in s'.past.published
      ensures m in s'.db.processed || Dead(s'.dead, m) || HasLive(s'.copies, m)
    {
      if Dead(s.dead, m) {
        var i :| 0 <= i < |s.dead| && s.dead[i].id == m;
        assert s'.dead[i].id == m;
      } else if HasLive(s.copies, m) {
        LiveAfterWork(s, c, step, m);
      }
    }
  }

  lemma LiveAfterWork(s: State, c: nat, step: WorkStep, m: MessageId)
    requires CanWork(s, c, step) && HasLive(s.copies, m)
    ensures var s' := DoWork(s, c, step); m in s'.db.processed || Dead(s'.dead, m) || HasLive(s'.copies, m)
  {
    var s' := DoWork(s, c, step);
    var x :| x in s.copies && s.copies[x].msg.id == m && Live(s.copies[x]);
    if x != c {
      assert x in s'.copies && s'.copies[x] == s.copies[x];
    } else if step.Detach? {
      assert step.copy in s'.copies && s'.copies[step.copy].msg.id == m && Live(s'.copies[step.copy]);
    } else if step.Forward? {
      if s.copies[c].msg.attempt >= MAX_ATTEMPTS {
        assert s'.dead[|s.dead|].id == m;
      } else {
        assert step.copy in s'.copies && s'.copies[step.copy].msg.id == m && Live(s'.copies[step.copy]);
      }
    } else {
      assert c in s'.copies && s'.copies[c].msg.id == m;
    }
  }

  lemma PlaceDead(processed: set<MessageId>, copies: map<nat, Copy>, dead: seq<Msg>, c: nat)
    requires OnePlace(processed, copies, dead) && c in copies && Live(copies[c])
    ensures OnePlace(processed, Move(copies, c, Forwarded), dead + [copies[c].msg])
  {
  }

  lemma PlaceRetry(processed: set<MessageId>, copies: map<nat, Copy>, dead: seq<Msg>, c: nat, c': nat, msg: Msg)
    requires OnePlace(processed, copies, dead) && c in copies && Live(copies[c]) && c' !in copies
    requires msg.id == copies[c].msg.id
    ensures OnePlace(processed, Move(copies, c, Forwarded)[c' := Fresh(msg)], dead)
  {
  }

  lemma PlaceAfterForward(s: State, c: nat, c': nat)
    requires CanWork(s, c, Forward(c')) && OnePlace(s.db.processed, s.copies, s.dead)
    ensures var s' := DoWork(s, c, Forward(c')); OnePlace(s'.db.processed, s'.copies, s'.dead)
  {
    var msg := s.copies[c].msg;
    if msg.attempt >= MAX_ATTEMPTS {
      PlaceDead(s.db.processed, s.copies, s.dead, c);
    } else {
      PlaceRetry(s.db.processed, s.copies, s.dead, c, c', msg.(attempt := msg.attempt + 1));
    }
  }

  /** Every other step but a redelivery leaves no copy more alive than it was. */
  lemma PlaceFrame(processed: set<MessageId>, copies: map<nat, Copy>, copies': map<nat, Copy>, dead: seq<Msg>)
    requires OnePlace(processed, copies, dead)
    requires forall x :: x in copies' && Live(copies'[x]) ==>
        x in copies && Live(copies[x]) && copies'[x].msg == copies[x].msg
    ensures OnePlace(processed, copies', dead)
  {
  }

  lemma PlaceAfterProcessed(s: State, c: nat, row: nat, at: Times)
    requires CanWork(s, c, CommitProcessed(row, at)) && s.copies[c].attached
    requires OnePlace(s.db.processed, s.copies, s.dead)
    ensures var s' := DoWork(s, c, CommitProcessed(row, at)); OnePlace(s'.db.processed, s'.copies, s'.dead)
  {
    assert Live(s.copies[c]);
  }

  /** The live copy that is put back, or lost and put back, has one live successor. */
  lemma PlaceReplaced(processed: set<MessageId>, copies: map<nat, Copy>, copies': map<nat, Copy>, dead: seq<Msg>,
                      c: nat, c': nat)
    requires OnePlace(processed, copies, dead) && c in copies && Live(copies[c])
    requires c' in copies' && copies'[c'].msg.id == copies[c].msg.id && (c' == c || (c in copies' && !Live(copies'[c])))
    requires forall x :: x in copies' && x != c && x != c' ==> x in copies && copies'[x] == copies[x]
    ensures OnePlace(processed, copies', dead)
  {
  }

  lemma PlaceAfterWork(s: State, c: nat, step: WorkStep)
    requires CanWork(s, c, step) && !Doubles(s.copies[c], step)
    requires OnePlace(s.db.processed, s.copies, s.dead)
    ensures var s' := DoWork(s, c, step); OnePlace(s'.db.processed, s'.copies, s'.dead)
  {
    match step
    case Forward(c') => PlaceAfterForward(s, c, c');
    case CommitProcessed(row, at) => PlaceAfterProcessed(s, c, row, at);
    case Redeliver => PlaceReplaced(s.db.processed, s.copies, DoWork(s, c, step).copies, s.dead, c, c);
    case Detach(c') => PlaceReplaced(s.db.processed, s.copies, DoWork(s, c, step).copies, s.dead, c, c');
    case _ => PlaceFrame(s.db.processed, s.copies, DoWork(s, c, step).copies, s.dead);
  }

  /** A message that is already in a place and comes to another one breaks the rule: a settled
      delivery put back, or the commit of a handler whose delivery was put back. */
  lemma PlaceDoubled(s: State, c: nat, step: WorkStep)
    requires CanWork(s, c, step) && Doubles(s.copies[c], step)
    requires LossInv(s.past.published, s.db.processed, s.copies, s.dead)
    requires MsgOk(s.copies[c].msg, s.past.published) && CopyOk(s.copies[c], s.db.processed)
    ensures var s' := DoWork(s, c, step); !OnePlace(s'.db.processed, s'.copies, s'.dead)
  {
    var s', m := DoWork(s, c, step), s.copies[c].msg.id;
    var back := if step.Detach? then step.copy else c;
    if step.CommitProcessed? {
      assert m in s'.db.processed;
    } else {
      assert back in s'.copies && Live(s'.copies[back]) && s'.copies[back].msg.id == m;
    }
    if m !in s.db.processed {
      if HasLive(s.copies, m) {
        var x :| x in s.copies && s.copies[x].msg.id == m && Live(s.copies[x]);
        assert x in s'.copies && s'.copies[x] == s.copies[x] && x != back;
      }
    }
  }
}
