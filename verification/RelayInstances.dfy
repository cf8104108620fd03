/** Two questions about the relay as deployed: does a published row stay published, and what does an
    audit document say about an order? */
module RelayInstances {
  import opened Options
  import opened Paging
  import OrderSaga
  import OrderTheorems
  import Refinement
  import opened OutboxRelay

  // ---- one instance -------------------------------------------------------------------------------------

  predicate NoneOpen(s: State) {
    forall r :: 0 <= r < |s.relays| ==> !s.relays[r].open
  }

  /** A run of a single scheduler: a pass starts only when the one before is over. */
  predicate OneAtATime(ls: seq<Label>) {
    ls != [] ==>
      var front, l := ls[..|ls| - 1], ls[|ls| - 1];
      OneAtATime(front) && (l.Begin? && Exec(front).Some? ==> NoneOpen(Exec(front).value))
  }

  ghost predicate OpenPending(s: State) {
    && (forall q, r :: 0 <= q < |s.relays| && 0 <= r < |s.relays| && s.relays[q].open && s.relays[r].open ==> q == r)
    && (forall r, k :: 0 <= r < |s.relays| && s.relays[r].open && 0 <= k < |s.relays[r].ids| ==>
          s.relays[r].ids[k] < |s.rows| && IsPending(s.rows[s.relays[r].ids[k]]))
  }

  lemma EndKeepsOpenPending(s: State, r: nat, ok: bool)
    requires Inv(s) && OpenPending(s) && Steps(s, End(r, ok))
    ensures var v := Step(s, End(r, ok));
      NoneOpen(v) && forall i :: 0 <= i < |s.rows| && s.rows[i].published ==> v.rows[i] == s.rows[i]
  {
    var t, v := s.relays[r], Step(s, End(r, ok));
    assert RelayOk(s, t);
    assert forall q :: 0 <= q < |s.relays| && s.relays[q].open ==> q == r;
    forall i | 0 <= i < |s.rows| && s.rows[i].published ensures v.rows[i] == s.rows[i] {
      assert forall k :: 0 <= k < |t.ids| ==> IsPending(s.rows[t.ids[k]]);
    }
  }

  lemma StepKeepsOpenPending(s: State, l: Label)
    requires Inv(s) && OpenPending(s) && Steps(s, l) && (l.Begin? ==> NoneOpen(s))
    ensures OpenPending(Step(s, l))
    ensures forall i :: 0 <= i < |s.rows| && s.rows[i].published ==> Step(s, l).rows[i] == s.rows[i]
  {
    if l.End? { EndKeepsOpenPending(s, l.r, l.ok); }
  }

  lemma {:induction false} OneAtATimeKeeps(ls: seq<Label>)
    requires Exec(ls).Some? && OneAtATime(ls)
    ensures OpenPending(Exec(ls).value)
  {
    if ls != [] {
      OneAtATimeKeeps(ls[..|ls| - 1]);
      EveryRunKeeps(ls[..|ls| - 1]);
      StepKeepsOpenPending(Exec(ls[..|ls| - 1]).value, ls[|ls| - 1]);
    }
  }

  /** With one instance a published row is never touched again. */
  lemma {:induction false} PublishedIsFinal(ls: seq<Label>, ms: seq<Label>, i: nat)
    requires Exec(ls).Some? && Exec(ls + ms).Some? && OneAtATime(ls + ms)
    requires i < |Exec(ls).value.rows| && Exec(ls).value.rows[i].published
    ensures i < |Exec(ls + ms).value.rows| && Exec(ls + ms).value.rows[i] == Exec(ls).value.rows[i]
  {
    if ms == [] {
      assert ls + ms == ls;
    } else {
      var front := ms[..|ms| - 1];
      assert (ls + ms)[..|ls + ms| - 1] == ls + front;
      PublishedIsFinal(ls, front, i);
      OneAtATimeKeeps(ls + front);
      EveryRunKeeps(ls + front);
      StepKeepsOpenPending(Exec(ls + front).value, ms[|ms| - 1]);
    }
  }

  // ---- the columns of a row -------------------------------------------------------------------------------

  /** publishedAt goes with PUBLISHED, lastError with a row that is still pending, and either with an
      attempt. */
  predicate RowOk(r: Row) {
    && (r.published <==> r.publishedAt.Some?)
    && (r.published ==> !r.failed) && (r.published || r.failed <==> r.attempts > 0)
  }

  ghost predicate RowsOk(s: State) {
    && (forall i :: 0 <= i < |s.rows| ==> RowOk(s.rows[i]))
    && (forall r, k :: 0 <= r < |s.relays| && 0 <= k < |s.relays[r].copies| ==> RowOk(s.relays[r].copies[k]))
  }

  lemma StepKeepsRowsOk(s: State, l: Label)
    requires RowsOk(s) && Steps(s, l)
    requires l.Send? ==> !s.relays[l.r].copies[s.relays[l.r].tried].published
    ensures RowsOk(Step(s, l))
  {
  }

  /** Copies not yet tried are still pending. */
  ghost predicate UntriedPending(s: State) {
    forall r, k :: 0 <= r < |s.relays| && s.relays[r].tried <= k < |s.relays[r].copies| ==> IsPending(s.relays[r].copies[k])
  }

  lemma StepKeepsUntried(s: State, l: Label)
    requires UntriedPending(s) && Steps(s, l)
    ensures UntriedPending(Step(s, l))
  {
  }

  /** So in every reachable state, with any number of instances. */
  lemma {:induction false} RowsAreConsistent(ls: seq<Label>)
    requires Exec(ls).Some?
    ensures RowsOk(Exec(ls).value) && UntriedPending(Exec(ls).value)
  {
    if ls != [] {
      var s, l := Exec(ls[..|ls| - 1]).value, ls[|ls| - 1];
      RowsAreConsistent(ls[..|ls| - 1]);
      StepKeepsRowsOk(s, l);
      StepKeepsUntried(s, l);
    }
  }

  // ---- a pass, step by step -----------------------------------------------------------------------------------

  /** What the broker answers for each row. */
  type Replies = nat -> OrderSaga.Outcome

  lemma Ran(ls: seq<Label>, s: State, l: Label) returns (ms: seq<Label>)
    requires Exec(ls) == Some(s) && Steps(s, l)
    ensures Exec(ms) == Some(Step(s, l)) && ms == ls + [l]
  {
    ms := ls + [l];
    assert ms[..|ls|] == ls;
  }

  lemma {:induction false} WriteBackAt(rows: seq<Row>, ids: seq<nat>, copies: seq<Row>, k: nat)
    requires |ids| == |copies| && k < |ids| && ids[k] < |rows|
    requires forall j, k :: 0 <= j < k < |ids| ==> ids[j] < ids[k]
    ensures WriteBack(rows, ids, copies)[ids[k]] == copies[k]
  {
    var n := |ids| - 1;
    if k < n { WriteBackAt(rows, ids[..n], copies[..n], k); }
  }

  lemma {:induction false} WriteBackElsewhere(rows: seq<Row>, ids: seq<nat>, copies: seq<Row>, i: nat)
    requires |ids| == |copies| && i < |rows| && forall k :: 0 <= k < |ids| ==> ids[k] != i
    ensures WriteBack(rows, ids, copies)[i] == rows[i]
  {
    if ids != [] {
      var n := |ids| - 1;
      WriteBackElsewhere(rows, ids[..n], copies[..n], i);
    }
  }

  /** The copies of a page with its first k rows tried. */
  function TriedCopies(rows: seq<Row>, page: seq<nat>, k: nat, reply: Replies, now: int): (c: seq<Row>)
    requires k <= |page| && forall j :: 0 <= j < |page| ==> page[j] < |rows|
    ensures |c| == |page|
    ensures forall j :: 0 <= j < |page| ==> c[j] == if j < k then Tried(rows[page[j]], reply(page[j]), now) else rows[page[j]]
  {
    if k == 0 then Copies(rows, page)
    else TriedCopies(rows, page, k - 1, reply, now)[k - 1 := Tried(rows[page[k - 1]], reply(page[k - 1]), now)]
  }

  /** One relay in the middle of its pass over s.rows. */
  function MidPass(s: State, page: seq<nat>, k: nat, reply: Replies, now: int, open: bool): State
    requires k <= |page| && forall j :: 0 <= j < |page| ==> page[j] < |s.rows|
  {
    s.(relays := s.relays + [Relay(page, TriedCopies(s.rows, page, k, reply, now), k, open)],
       sent := s.sent + SentBy(s.rows, page[..k], reply))
  }

  predicate Goes(s: State, l: Label, v: State) { Steps(s, l) && Step(s, l) == v }

  predicate SendGoes(s: State, page: seq<nat>, k: nat, reply: Replies, now: int)
    requires k < |page| && forall j :: 0 <= j < |page| ==> page[j] < |s.rows|
  {
    Goes(MidPass(s, page, k, reply, now, true), Send(|s.relays|, reply(page[k]), now), MidPass(s, page, k + 1, reply, now, true))
  }

  lemma SendMoves(s: State, page: seq<nat>, k: nat, reply: Replies, now: int)
    requires k < |page| && forall j :: 0 <= j < |page| ==> page[j] < |s.rows|
    ensures SendGoes(s, page, k, reply, now)
  {
    var u, v := MidPass(s, page, k, reply, now, true), MidPass(s, page, k + 1, reply, now, true);
    var l := Send(|s.relays|, reply(page[k]), now);
    assert page[..k + 1][..k] == page[..k];
    assert Step(u, l).relays == v.relays;
    assert Step(u, l).sent == v.sent;
  }

  lemma WriteBackIsPassed(rows: seq<Row>, page: seq<nat>, reply: Replies, now: int)
    requires Selects(IsPending, rows, page)
    ensures WriteBack(rows, page, TriedCopies(rows, page, |page|, reply, now)) == Passed(rows, page, reply, now)
  {
    PassedMeans(rows, page, reply, now);
    var copies := TriedCopies(rows, page, |page|, reply, now);
    forall i | 0 <= i < |rows| ensures WriteBack(rows, page, copies)[i] == Passed(rows, page, reply, now)[i] {
      if k :| 0 <= k < |page| && page[k] == i {
        WriteBackAt(rows, page, copies, k);
      } else {
        WriteBackElsewhere(rows, page, copies, i);
      }
    }
  }

  lemma BeginMoves(s: State, batchSize: int, reply: Replies, now: int)
    ensures Goes(s, Begin(batchSize), MidPass(s, Page(s.rows, batchSize), 0, reply, now, true))
  {
    var page := Page(s.rows, batchSize);
    assert page[..0] == [] && s.sent + [] == s.sent;
  }

  /** The state after the batch loop has run and committed. */
  function AfterPass(s: State, page: seq<nat>, reply: Replies, now: int): State
    requires forall j :: 0 <= j < |page| ==> page[j] < |s.rows|
  {
    MidPass(s, page, |page|, reply, now, false).(
      rows := Passed(s.rows, page, reply, now), sent := s.sent + SentBy(s.rows, page, reply))
  }

  lemma EndMoves(s: State, page: seq<nat>, reply: Replies, now: int)
    requires Selects(IsPending, s.rows, page)
    ensures Goes(MidPass(s, page, |page|, reply, now, true), End(|s.relays|, true), AfterPass(s, page, reply, now))
  {
    WriteBackIsPassed(s.rows, page, reply, now);
    assert page[..|page|] == page;
  }

  /** From any state, the steps of one relay with nothing in between are the pass of the batch loop: each
      of the first pending rows is sent once, in id order, and marked by its outcome. */
  lemma RelayRunIsPass(s: State, batchSize: int, reply: Replies, now: int)
    ensures var page := Page(s.rows, batchSize);
      && Goes(s, Begin(batchSize), MidPass(s, page, 0, reply, now, true))
      && (forall k :: 0 <= k < |page| ==> SendGoes(s, page, k, reply, now))
      && Goes(MidPass(s, page, |page|, reply, now, true), End(|s.relays|, true), AfterPass(s, page, reply, now))
  {
    var page := Page(s.rows, batchSize);
    BeginMoves(s, batchSize, reply, now);
    forall k | 0 <= k < |page| ensures SendGoes(s, page, k, reply, now) {
      SendMoves(s, page, k, reply, now);
    }
    EndMoves(s, page, reply, now);
  }

  /** A delivery that gets through leaves a document for its message: this one, unless there was one. */
  lemma DeliveredIsStored(s: State, k: nat, at: int)
    requires k < |s.sent|
    ensures var v := Step(s, Deliver(k, true, at)); var d := Doc(s.sent[k].message, s.sent[k], at);
      && (exists i :: 0 <= i < |v.docs| && v.docs[i].messageId == s.sent[k].message)
      && (v.docs == s.docs || v.docs == s.docs + [d])
      && ((forall i :: 0 <= i < |s.docs| ==> s.docs[i].messageId != s.sent[k].message) ==> v.docs == s.docs + [d])
  {
    var v := Step(s, Deliver(k, true, at));
    if forall i :: 0 <= i < |s.docs| ==> s.docs[i].messageId != s.sent[k].message {
      assert v.docs[|s.docs|].messageId == s.sent[k].message;
    }
  }

  // ---- two instances ----------------------------------------------------------------------------------------

  function Pair(row: Row, a: Relay, b: Relay, sent: seq<OrderSaga.Event>): State {
    State([row], [a, b], sent, [], [])
  }

  lemma ReadsOne(s: State, e: OrderSaga.Event)
    requires s.rows == [NewRow(e)]
    ensures Step(s, Begin(50)) == s.(relays := s.relays + [Relay([0], [NewRow(e)], 0, true)])
  {
    assert FirstWhere(IsPending, s.rows, 50) == [0] by { assert s.rows[..0] == []; }
    assert Copies(s.rows, [0]) == [NewRow(e)];
  }

  lemma OneInstanceReads(e: OrderSaga.Event) returns (ls: seq<Label>)
    ensures Exec(ls) == Some(State([NewRow(e)], [Relay([0], [NewRow(e)], 0, true)], [], [], []))
  {
    var s := State([NewRow(e)], [], [], [], []);
    ReadsOne(s, e);
    ls := Ran([], START, Enqueue(e));
    assert Step(START, Enqueue(e)) == s;
    ls := Ran(ls, s, Begin(50));
    assert s.relays + [Relay([0], [NewRow(e)], 0, true)] == [Relay([0], [NewRow(e)], 0, true)];
  }

  lemma TwoInstancesRead(e: OrderSaga.Event) returns (ls: seq<Label>)
    ensures var t := Relay([0], [NewRow(e)], 0, true); Exec(ls) == Some(Pair(NewRow(e), t, t, []))
  {
    var t := Relay([0], [NewRow(e)], 0, true);
    var s := State([NewRow(e)], [t], [], [], []);
    ReadsOne(s, e);
    ls := OneInstanceReads(e);
    ls := Ran(ls, s, Begin(50));
    assert [t] + [t] == [t, t];
  }

  const SENT := OrderSaga.Done
  const LOST := OrderSaga.Failed

  lemma FirstFinishes(e: OrderSaga.Event, b: Relay)
    ensures var row, good := NewRow(e), Tried(NewRow(e), SENT, 9);
      var s := Pair(row, Relay([0], [row], 0, true), b, []);
      && Steps(s, Send(0, SENT, 9)) && Steps(Step(s, Send(0, SENT, 9)), End(0, true))
      && Step(Step(s, Send(0, SENT, 9)), End(0, true)) == Pair(good, Relay([0], [good], 1, false), b, [e])
  {
    var row, good := NewRow(e), Tried(NewRow(e), SENT, 9);
    assert WriteBack([row], [0], [good]) == [good];
    assert Step(Pair(row, Relay([0], [row], 0, true), b, []), Send(0, SENT, 9))
      == Pair(row, Relay([0], [good], 1, true), b, [e]);
  }

  lemma SecondFails(e: OrderSaga.Event, row: Row, a: Relay, sent: seq<OrderSaga.Event>)
    ensures var stale, bad := NewRow(e), Tried(NewRow(e), LOST, 9);
      var s := Pair(row, a, Relay([0], [stale], 0, true), sent);
      && Steps(s, Send(1, LOST, 9)) && Steps(Step(s, Send(1, LOST, 9)), End(1, true))
      && Step(Step(s, Send(1, LOST, 9)), End(1, true)) == Pair(bad, a, Relay([0], [bad], 1, false), sent)
  {
    var bad := Tried(NewRow(e), LOST, 9);
    assert WriteBack([row], [0], [bad]) == [bad];
    assert [NewRow(e)][0 := bad] == [bad];
    assert [a, Relay([0], [NewRow(e)], 0, true)][1 := Relay([0], [bad], 1, true)] == [a, Relay([0], [bad], 1, true)];
    assert Step(Pair(row, a, Relay([0], [NewRow(e)], 0, true), sent), Send(1, LOST, 9))
      == Pair(row, a, Relay([0], [bad], 1, true), sent);
  }

  /** The copy that a finished relay is about to write over row i still says pending. */
  predicate Overwrites(t: Relay, i: nat) {
    exists k :: 0 <= k < |t.ids| && k < |t.copies| && t.ids[k] == i && !t.copies[k].published
  }

  lemma WriteBackUnpublishes(rows: seq<Row>, t: Relay, i: nat)
    requires |t.ids| == |t.copies| && i < |rows| && rows[i].published
    requires forall j, k :: 0 <= j < k < |t.ids| ==> t.ids[j] < t.ids[k]
    ensures IsPending(WriteBack(rows, t.ids, t.copies)[i]) <==> Overwrites(t, i)
  {
    if k :| 0 <= k < |t.ids| && t.ids[k] == i {
      WriteBackAt(rows, t.ids, t.copies, k);
      assert forall j :: 0 <= j < |t.ids| && t.ids[j] == i ==> j == k;
    } else {
      WriteBackElsewhere(rows, t.ids, t.copies, i);
    }
  }

  lemma UnpublishingStep(s: State, l: Label, i: nat)
    requires Inv(s) && Steps(s, l) && i < |s.rows| && s.rows[i].published
    ensures |Step(s, l).rows| >= |s.rows|
    ensures IsPending(Step(s, l).rows[i]) <==> l.End? && l.ok && Overwrites(s.relays[l.r], i)
  {
    if l.End? {
      assert RelayOk(s, s.relays[l.r]);
      WriteBackUnpublishes(s.rows, s.relays[l.r], i);
    }
  }

  /** With any number of instances, in any reachable state, the steps that take a published row back
      to pending are exactly the commits of a relay that read the row earlier and failed to send it. */
  lemma WhatUnpublishes(ls: seq<Label>, l: Label, i: nat)
    requires Exec(ls).Some? && Steps(Exec(ls).value, l)
    requires i < |Exec(ls).value.rows| && Exec(ls).value.rows[i].published
    ensures var s := Exec(ls).value; var v := Step(s, l);
      && |v.rows| >= |s.rows|
      && (IsPending(v.rows[i]) <==> l.End? && l.ok && Overwrites(s.relays[l.r], i))
  {
    EveryRunKeeps(ls);
    UnpublishingStep(Exec(ls).value, l, i);
  }

  /** With two, a slow instance whose send fails writes its stale copy over a published row, and the
      row is pending again: the whole-row update has no version to stop it. */
  lemma TwoInstancesUnpublish(e: OrderSaga.Event) returns (ls: seq<Label>, ms: seq<Label>)
    ensures Exec(ls).Some? && |Exec(ls).value.rows| == 1 && Exec(ls).value.rows[0].published
    ensures Exec(ls + ms).Some? && |Exec(ls + ms).value.rows| == 1 && !Exec(ls + ms).value.rows[0].published
  {
    var t, good := Relay([0], [NewRow(e)], 0, true), Tried(NewRow(e), SENT, 9);
    FirstFinishes(e, t);
    SecondFails(e, good, Relay([0], [good], 1, false), [e]);
    var s := Pair(NewRow(e), t, t, []);
    ls := TwoInstancesRead(e);
    ls := Ran(ls, s, Send(0, SENT, 9));
    ls := Ran(ls, Step(s, Send(0, SENT, 9)), End(0, true));
    var u := Pair(good, Relay([0], [good], 1, false), t, [e]);
    var ns := Ran(ls, u, Send(1, LOST, 9));
    ns := Ran(ns, Step(u, Send(1, LOST, 9)), End(1, true));
    ms := [Send(1, LOST, 9), End(1, true)];
    assert ns == ls + ms;
  }

  // ---- from audit document to order ---------------------------------------------------------------------------

  lemma CommittedStems(db0: Refinement.Db, w: OrderSaga.World, rows: seq<Row>, e: OrderSaga.Event)
    requires forall j :: 0 <= j < |w.outbox| ==> OrderTheorems.Stems(db0, w.log, w.outbox[j])
    requires |rows| <= |w.outbox| && forall j :: 0 <= j < |rows| ==> rows[j].event == w.outbox[j]
    requires Committed(rows, e)
    ensures OrderTheorems.Stems(db0, w.log, e)
  {
    var j :| 0 <= j < |rows| && rows[j].event == e;
    assert OrderTheorems.Stems(db0, w.log, w.outbox[j]);
  }

  /** Order service and relay together: every document in the audit collection reports a change that
      was committed to the order it names, with the status and the total that commit left. */
  lemma AuditReportsCommits(w0: OrderSaga.World, os: seq<OrderSaga.Label>, ls: seq<Label>, i: nat)
    requires OrderSaga.Initial(w0) && OrderSaga.Exec(w0, os).Some? && Exec(ls).Some?
    requires var outbox := OrderSaga.Exec(w0, os).value.outbox; var rows := Exec(ls).value.rows;
      |rows| <= |outbox| && forall j :: 0 <= j < |rows| ==> rows[j].event == outbox[j]
    requires i < |Exec(ls).value.docs|
    ensures OrderTheorems.Stems(
      Refinement.Db(w0.orders, w0.outbox), OrderSaga.Exec(w0, os).value.log, Exec(ls).value.docs[i].event)
  {
    AuditTrail(ls);
    var db0 := Refinement.Db(w0.orders, w0.outbox);
    forall j: nat | j < |OrderSaga.Exec(w0, os).value.outbox|
      ensures OrderTheorems.Stems(db0, OrderSaga.Exec(w0, os).value.log, OrderSaga.Exec(w0, os).value.outbox[j])
    {
      OrderTheorems.EventsTellTheRow(w0, os, j);
    }
    CommittedStems(db0, OrderSaga.Exec(w0, os).value, Exec(ls).value.rows, Exec(ls).value.docs[i].event);
  }
}
