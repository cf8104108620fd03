/** What every run of the order saga guarantees about committed orders, their events, their money,
    and their idempotency keys. */
module OrderTheorems {
  import opened Options
  import opened Orders
  import opened OrderSaga
  import opened Refinement

  // ---- what an order costs ---------------------------------------------------------------------------

  /** A create that holds or has used a price had it from its own reservation. */
  predicate PriceKnown(ls: seq<Label>, c: nat, call: Call) {
    && (call.Create? && call.step.Holding? ==> Reserve(c, Done, call.step.price) in ls)
    && (call.Create? && call.step.Created? ==> Reserve(c, Done, call.step.unit) in ls)
  }

  ghost predicate PricesKnown(ls: seq<Label>, w: World) {
    forall c :: 0 <= c < |w.calls| ==> PriceKnown(ls, c, w.calls[c])
  }

  lemma PriceStep(ls: seq<Label>, w: World, l: Label)
    requires Steps(w, l) && OnCreate(l) && PriceKnown(ls, l.c, w.calls[l.c])
    ensures PriceKnown(ls + [l], l.c, Step(w, l).calls[l.c])
  {
  }

  lemma {:induction false} PricesAreKnown(w0: World, ls: seq<Label>)
    requires Initial(w0) && Exec(w0, ls).Some?
    ensures PricesKnown(ls, Exec(w0, ls).value)
  {
    if ls != [] {
      var front, l := ls[..|ls| - 1], ls[|ls| - 1];
      assert ls == front + [l];
      PricesAreKnown(w0, front);
      var w := Exec(w0, front).value;
      if OnCreate(l) {
        CreateStepTouches(w, l);
        PriceStep(front, w, l);
      } else if OnChange(l) {
        ChangeStepTouches(w, l);
      }
    }
  }

  predicate CreatesRow(call: Call, i: nat) { call.Create? && call.step.Created? && call.step.id == i }

  ghost predicate HasCreate(w: World, i: nat) { exists c :: 0 <= c < |w.calls| && CreatesRow(w.calls[c], i) }

  lemma CreateRemains(w: World, l: Label, i: nat)
    requires Steps(w, l) && (HasCreate(w, i) || |w.orders| == i < |Step(w, l).orders|)
    ensures HasCreate(Step(w, l), i)
  {
    var v := Step(w, l);
    if c :| 0 <= c < |w.calls| && CreatesRow(w.calls[c], i) {
      if OnCreate(l) {
        CreateStepTouches(w, l);
      } else if OnChange(l) {
        ChangeStepTouches(w, l);
      }
      assert CreatesRow(v.calls[c], i);
    } else {
      if !l.Insert? && !l.Commit? { OrdersChangeOnlyByCommits(w, l); }
      assert CreatesRow(v.calls[l.c], i);
    }
  }

  lemma {:induction false} EveryNewRowHasCreate(w0: World, ls: seq<Label>, i: nat)
    requires Initial(w0) && Exec(w0, ls).Some? && |w0.orders| <= i < |Exec(w0, ls).value.orders|
    ensures HasCreate(Exec(w0, ls).value, i)
  {
    var front, l := ls[..|ls| - 1], ls[|ls| - 1];
    var w := Exec(w0, front).value;
    if i < |w.orders| { EveryNewRowHasCreate(w0, front, i); }
    CreateRemains(w, l, i);
  }

  lemma {:induction false} ApplyAllKeepsOrder(o: Order, ops: seq<Op>)
    ensures SameOrder(o, ApplyAll(o, ops))
  {
    if ops != [] {
      ApplyAllKeepsOrder(o, ops[..|ops| - 1]);
      ApplyKeepsOrder(ApplyAll(o, ops[..|ops| - 1]), ops[|ops| - 1]);
    }
  }

  /** Row i was inserted by call c for its own user, request number, product and quantity, and costs the
      price that this call's reservation was answered, times the quantity. */
  predicate BoughtBy(ls: seq<Label>, w: World, i: nat, c: nat) {
    && i < |w.orders| && c < |w.calls| && CreatesRow(w.calls[c], i)
    && var call, o := w.calls[c], w.orders[i];
       && Reserve(c, Done, call.step.unit) in ls
       && HasKey(o, call.user, call.requestNo) && o.product == call.product && o.quantity == call.quantity
       && o.origin == Some(call.step.unit * call.quantity)
  }

  lemma OrderCostsItsPrice(w0: World, ls: seq<Label>, i: nat) returns (c: nat)
    requires Initial(w0) && Exec(w0, ls).Some? && |w0.orders| <= i < |Exec(w0, ls).value.orders|
    ensures BoughtBy(ls, Exec(w0, ls).value, i, c)
  {
    var w := Exec(w0, ls).value;
    EveryNewRowHasCreate(w0, ls, i);
    c :| 0 <= c < |w.calls| && CreatesRow(w.calls[c], i);
    PricesAreKnown(w0, ls);
    EveryRunIsSerial(w0, ls);
    assert CallOk(w.orders, w.calls[c]) && PriceKnown(ls, c, w.calls[c]);
  }

  // ---- status, events, money ----------------------------------------------------------------------

  /** For every order created by this service, in every reachable state: it was inserted, and still is,
      at the price its reservation was answered times its quantity; the status tells which operations
      were committed and in which order, with at most three of them; unpaid rows carry no discount or
      final amount however many payments failed; paid rows carry what the coupon platform answered, and
      balance; a rejection refunded what the payment charged; and a listener to the outbox, reading the
      order's events in id order, knows the status up to the silent completion. */
  lemma CommittedOrder(w0: World, ls: seq<Label>, i: nat)
    requires Initial(w0) && Exec(w0, ls).Some?
    requires |w0.orders| <= i < |Exec(w0, ls).value.orders|
    ensures var w := Exec(w0, ls).value;
      && Story(w.orders[i], OpsOf(w.log, i))
      && (exists c :: BoughtBy(ls, w, i, c))
      && i < |Births(w0.orders, w.log)| && w.orders[i].origin == Some(Births(w0.orders, w.log)[i].total)
      && EventsOf(w.outbox, i) in STREAMS
      && HeardAll(EventsOf(w.outbox, i)) == Some(Audible(w.orders[i].status))
  {
    var w := Exec(w0, ls).value;
    var c := OrderCostsItsPrice(w0, ls, i);
    EveryRunIsSerial(w0, ls);
    Projection(Db(w0.orders, w0.outbox), w.log, i);
    var birth := Births(w0.orders, w.log)[i];
    FreshLife(birth, OpsOf(w.log, i));
    ApplyAllKeepsOrder(birth, OpsOf(w.log, i));
    StoryIsHeard(w.orders[i], OpsOf(w.log, i));
  }

  // ---- what an event says ------------------------------------------------------------------------------

  /** What the kind of an event promises about the operation and the row it was written with. */
  predicate Tells(op: Op, e: Event) {
    match e.kind
    case OrderCreated => op.Pay? && e.status == PaidPendingApproval && e.total == op.charged
    case OrderCancelled => op.Cancel? && e.status == Cancelled
    case OrderApproved => op.Approve? && e.status == Shipping
    case OrderRejected => op.Reject? && e.status == Rejected
  }

  /** Entry k of the log is the change that event e reports, and e carries the status and the total of
      the row as that commit left it. */
  ghost predicate StemsFrom(db0: Db, log: seq<Entry>, e: Event, k: nat) {
    && k < |log| && log[k].Changed? && log[k].id == e.order && log[k].message == e.message && Tells(log[k].op, e)
    && Replay(db0, log[..k + 1]).Some?
    && var orders := Replay(db0, log[..k + 1]).value.orders;
       e.order < |orders| && orders[e.order].status == e.status && orders[e.order].total == e.total
  }

  ghost predicate Stems(db0: Db, log: seq<Entry>, e: Event) { exists k :: StemsFrom(db0, log, e, k) }

  lemma LastEntryTells(db0: Db, log: seq<Entry>, e: Event)
    requires log != [] && Replay(db0, log).Some?
    requires var db := Replay(db0, log[..|log| - 1]).value;
      var entry := log[|log| - 1];
      entry.Changed? && Can(db, entry) && e in EventsFor(entry.op, entry.id, Apply(db.orders[entry.id], entry.op), entry.message)
    ensures StemsFrom(db0, log, e, |log| - 1)
  {
    assert log[..|log| - 1 + 1] == log;
  }

  lemma StemsStays(db0: Db, log: seq<Entry>, n: nat, e: Event)
    requires n <= |log| && Stems(db0, log[..n], e)
    ensures Stems(db0, log, e)
  {
    var k :| StemsFrom(db0, log[..n], e, k);
    assert log[..n][..k + 1] == log[..k + 1];
    assert StemsFrom(db0, log, e, k);
  }

  lemma {:induction false} OutboxStems(db0: Db, log: seq<Entry>, j: nat)
    requires db0.outbox == [] && Replay(db0, log).Some?
    requires j < |Replay(db0, log).value.outbox|
    ensures Stems(db0, log, Replay(db0, log).value.outbox[j])
  {
    var n := |log| - 1;
    var db := Replay(db0, log[..n]).value;
    if j < |db.outbox| {
      OutboxStems(db0, log[..n], j);
      StemsStays(db0, log, n, db.outbox[j]);
    } else {
      LastEntryTells(db0, log, Replay(db0, log).value.outbox[j]);
      assert StemsFrom(db0, log, Replay(db0, log).value.outbox[j], n);
    }
  }

  /** Every committed outbox row reports a committed change, with the status and the total that this very
      commit left on the order. */
  lemma EventsTellTheRow(w0: World, ls: seq<Label>, j: nat)
    requires Initial(w0) && Exec(w0, ls).Some? && j < |Exec(w0, ls).value.outbox|
    ensures Stems(Db(w0.orders, w0.outbox), Exec(w0, ls).value.log, Exec(w0, ls).value.outbox[j])
  {
    EveryRunIsSerial(w0, ls);
    OutboxStems(Db(w0.orders, w0.outbox), Exec(w0, ls).value.log, j);
  }

  // ---- refunding, final states ---------------------------------------------------------------------------

  /** A reject transaction saves REFUNDING before it asks for the refund: the managed entity carries it
      in every reachable state exactly from the read until the refund has come back. */
  lemma RefundingInsideReject(w0: World, ls: seq<Label>, c: nat)
    requires Initial(w0) && Exec(w0, ls).Some? && c < |Exec(w0, ls).value.calls|
    requires Exec(w0, ls).value.calls[c].Change? && Exec(w0, ls).value.calls[c].progress.Working?
    ensures var call := Exec(w0, ls).value.calls[c];
      call.progress.managed.status == Refunding <==> call.intent.ToReject? && call.progress.moved.None?
  {
    EveryRunIsSerial(w0, ls);
    assert CallOk(Exec(w0, ls).value.orders, Exec(w0, ls).value.calls[c]);
  }

  lemma NoRefundingFlush(w: World, l: Label, i: nat)
    requires CallsOk(w) && Steps(w, l) && i < |Step(w, l).orders|
    requires i < |w.orders| ==> w.orders[i].status != Refunding
    ensures Step(w, l).orders[i].status != Refunding
  {
    if l.Commit? {
      if CommitSucceeds(w, l.c, l.message, l.dbOk) {
        assert CallOk(w.orders, w.calls[l.c]);
        CommitWrites(w, l.c, l.message, l.dbOk);
        ApplyKeepsOrder(w.calls[l.c].progress.row, ReadyOp(w.calls[l.c]).value);
      }
    } else if !l.Insert? {
      OrdersChangeOnlyByCommits(w, l);
    }
  }

  /** Yet it is never committed: a reject that is ready to commit has been refunded. */
  lemma {:induction false} RefundingIsNeverCommitted(w0: World, ls: seq<Label>, i: nat)
    requires Initial(w0) && Exec(w0, ls).Some? && i < |Exec(w0, ls).value.orders|
    ensures Exec(w0, ls).value.orders[i].status != Refunding
  {
    if ls != [] {
      var front := ls[..|ls| - 1];
      if i < |Exec(w0, front).value.orders| {
        RefundingIsNeverCommitted(w0, front, i);
      }
      EveryRunIsSerial(w0, front);
      NoRefundingFlush(Exec(w0, front).value, ls[|ls| - 1], i);
    }
  }

  lemma FinalStays(w: World, l: Label, i: nat)
    requires CallsOk(w) && Steps(w, l) && i < |w.orders| && IsFinal(w.orders[i].status)
    ensures i < |Step(w, l).orders| && Step(w, l).orders[i] == w.orders[i]
  {
    if l.Commit? {
      if CommitSucceeds(w, l.c, l.message, l.dbOk) {
        assert CallOk(w.orders, w.calls[l.c]);
        CommitWrites(w, l.c, l.message, l.dbOk);
      }
    } else if !l.Insert? {
      OrdersChangeOnlyByCommits(w, l);
    }
  }

  /** CANCELLED, REJECTED and COMPLETED rows never change again, in any column, whatever runs. */
  lemma {:induction false} FinalIsAbsorbing(w0: World, ls: seq<Label>, ms: seq<Label>, i: nat)
    requires Initial(w0) && Exec(w0, ls).Some? && Exec(w0, ls + ms).Some?
    requires i < |Exec(w0, ls).value.orders| && IsFinal(Exec(w0, ls).value.orders[i].status)
    ensures i < |Exec(w0, ls + ms).value.orders|
    ensures Exec(w0, ls + ms).value.orders[i] == Exec(w0, ls).value.orders[i]
  {
    if ms == [] {
      assert ls + ms == ls;
    } else {
      var front := ms[..|ms| - 1];
      assert (ls + ms)[..|ls + ms| - 1] == ls + front;
      FinalIsAbsorbing(w0, ls, front, i);
      EveryRunIsSerial(w0, ls + front);
      FinalStays(Exec(w0, ls + front).value, ms[|ms| - 1], i);
    }
  }
}
