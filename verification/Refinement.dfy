/** Optimistic locking makes the interleaved machine serial: the committed tables are those of a
    run in which every committed operation happened at once, on the current row. */
module Refinement {
  import opened Options
  import opened Orders
  import opened OrderSaga

  // ---- the serial machine ---------------------------------------------------------------------

  datatype Db = Db(orders: seq<Order>, outbox: seq<Event>)

  predicate Can(db: Db, e: Entry) {
    match e
    case Inserted(row) =>
      IsFresh(row) && row.requestNo.Some? && Find(db.orders, row.user, row.requestNo.value).None?
    case Changed(i, op, message) =>
      && i < |db.orders| && Enabled(db.orders[i], op)
      && (EventKind(op).Some? ==> FreshMessage(db.outbox, message))
  }

  function Did(db: Db, e: Entry): Db
    requires Can(db, e)
  {
    match e
    case Inserted(row) => db.(orders := db.orders + [row])
    case Changed(i, op, message) =>
      var row := Apply(db.orders[i], op);
      Db(db.orders[i := row], db.outbox + EventsFor(op, i, row, message))
  }

  function Replay(db: Db, log: seq<Entry>): Option<Db> {
    if log == [] then Some(db)
    else
      match Replay(db, log[..|log| - 1])
      case Some(d) => if Can(d, log[|log| - 1]) then Some(Did(d, log[|log| - 1])) else None
      case None => None
  }

  lemma ReplayExtends(db: Db, log: seq<Entry>, d: Db, e: Entry)
    requires Replay(db, log) == Some(d) && Can(d, e)
    ensures Replay(db, log + [e]) == Some(Did(d, e))
  {
    assert (log + [e])[..|log|] == log;
  }

  // ---- what every step keeps --------------------------------------------------------------------

  predicate SameOrder(a: Order, b: Order) {
    && a.user == b.user && a.requestNo == b.requestNo && a.product == b.product && a.quantity == b.quantity
    && (a.origin.Some? ==> b.origin == a.origin)
  }

  /** How far the setters have got, told from the remote calls that have come back. */
  function Managed(intent: Intent, o: Order, claim: Option<Claim>, moved: Option<int>): Order {
    var first := Opened(intent, o);
    var prepared := if claim.Some? then Prepare(first, claim.value) else first;
    if moved.Some? then Settled(intent, prepared, moved.value) else prepared
  }

  /** What a transaction holds is true of the row it read; the row it read is the table's row for
      as long as nobody has raised the version. */
  predicate WorkOk(orders: seq<Order>, call: Call)
    requires call.Change? && call.progress.Working?
  {
    var p := call.progress;
    && call.order < |orders| && SameOrder(p.row, orders[call.order])
    && p.row.version <= orders[call.order].version
    && (p.row.version == orders[call.order].version ==> p.row == orders[call.order])
    && Admissible(call.intent, p.row)
    && (p.claim.Some? ==> call.intent.ToPay? && ClaimFits(p.row, p.claim.value))
    && (p.moved.Some? ==>
          || (call.intent.ToReject? && p.moved.value == RefundAmount(p.row))
          || (call.intent.ToPay? && p.claim.Some? && p.moved.value == PayableAmount(Prepare(p.row, p.claim.value))))
    && (p.released ==> call.intent.ToCancel? || (call.intent.ToReject? && p.moved.Some?))
    && p.managed == Managed(call.intent, p.row, p.claim, p.moved)
  }

  predicate CallOk(orders: seq<Order>, call: Call) {
    match call
    case Create(user, requestNo, product, quantity, step, _) =>
      && quantity > 0
      && (step.Returned? ==> step.id < |orders| && HasKey(orders[step.id], user, requestNo))
      && (step.Created? ==>
            && step.id < |orders| && HasKey(orders[step.id], user, requestNo)
            && orders[step.id].product == product && orders[step.id].quantity == quantity
            && orders[step.id].origin == Some(step.unit * quantity))
    case Change(_, order, _, progress) =>
      && (progress.Working? ==> WorkOk(orders, call))
      && (progress.RolledBack? ==> order < |orders| && SameOrder(progress.was, orders[order]))
      && (progress.Committed? ==> order < |orders|)
  }

  ghost predicate CallsOk(w: World) {
    forall c :: 0 <= c < |w.calls| ==> CallOk(w.orders, w.calls[c])
  }

  ghost predicate Serialised(w0: World, w: World) {
    Replay(Db(w0.orders, w0.outbox), w.log) == Some(Db(w.orders, w.outbox))
  }

  ghost predicate Inv(w0: World, w: World) {
    CallsOk(w) && Serialised(w0, w)
  }

  lemma ReadyIsEnabled(orders: seq<Order>, call: Call)
    requires CallOk(orders, call) && ReadyOp(call).Some?
    ensures Enabled(call.progress.row, ReadyOp(call).value)
    ensures Flushed(call.progress.managed) == Apply(call.progress.row, ReadyOp(call).value)
  {
  }

  lemma ApplyKeepsOrder(o: Order, op: Op)
    ensures SameOrder(o, Apply(o, op)) && Apply(o, op).version == o.version + 1
    ensures Apply(o, op).status != Refunding
  {
  }

  lemma CallSurvivesInsert(orders: seq<Order>, row: Order, call: Call)
    requires CallOk(orders, call)
    ensures CallOk(orders + [row], call)
  {
  }

  lemma InsertKeepsCalls(w: World, c: nat, fault: InsertFault)
    requires CallsOk(w) && Steps(w, Insert(c, fault))
    ensures CallsOk(DoInsert(w, c, fault))
  {
    var call := w.calls[c];
    var row := NewOrder(call, call.step.price);
    forall k | 0 <= k < |w.calls| ensures CallOk(w.orders + [row], w.calls[k]) {
      CallSurvivesInsert(w.orders, row, w.calls[k]);
    }
    assert CallOk(w.orders, call);
  }

  lemma InsertKeeps(w0: World, w: World, c: nat, fault: InsertFault)
    requires Inv(w0, w) && Steps(w, Insert(c, fault))
    ensures Inv(w0, DoInsert(w, c, fault))
  {
    InsertKeepsCalls(w, c, fault);
    if DoInsert(w, c, fault).log != w.log {
      assert CallOk(w.orders, w.calls[c]);
      var row := NewOrder(w.calls[c], w.calls[c].step.price);
      ReplayExtends(Db(w0.orders, w0.outbox), w.log, Db(w.orders, w.outbox), Inserted(row));
    }
  }

  /** A commit that goes through writes the operation's own row change over the row it read, which is
      the row in the table. */
  lemma CommitWrites(w: World, c: nat, message: string, dbOk: bool)
    requires c < |w.calls| && ReadyOp(w.calls[c]).Some? && CallOk(w.orders, w.calls[c])
    requires CommitSucceeds(w, c, message, dbOk)
    ensures var call := w.calls[c]; var op := ReadyOp(call).value;
      && call.order < |w.orders| && w.orders[call.order] == call.progress.row && Enabled(call.progress.row, op)
      && DoCommit(w, c, message, dbOk).orders == w.orders[call.order := Apply(call.progress.row, op)]
      && SameOrder(call.progress.row, Apply(call.progress.row, op))
      && Apply(call.progress.row, op).version == call.progress.row.version + 1
  {
    ReadyIsEnabled(w.orders, w.calls[c]);
    ApplyKeepsOrder(w.calls[c].progress.row, ReadyOp(w.calls[c]).value);
  }

  /** Whoever still works with the row read before is one version behind from now on. */
  lemma CallSurvivesCommit(orders: seq<Order>, i: nat, row: Order, call: Call)
    requires CallOk(orders, call) && i < |orders|
    requires SameOrder(orders[i], row) && row.version == orders[i].version + 1
    ensures CallOk(orders[i := row], call)
  {
  }

  lemma CommitKeepsCalls(w: World, c: nat, message: string, dbOk: bool)
    requires CallsOk(w) && Steps(w, Commit(c, message, dbOk))
    ensures CallsOk(DoCommit(w, c, message, dbOk))
  {
    var call := w.calls[c];
    var v := DoCommit(w, c, message, dbOk);
    assert CallOk(w.orders, call);
    if CommitSucceeds(w, c, message, dbOk) {
      CommitWrites(w, c, message, dbOk);
      forall k | 0 <= k < |v.calls| ensures CallOk(v.orders, v.calls[k]) {
        if k != c { CallSurvivesCommit(w.orders, call.order, v.orders[call.order], w.calls[k]); }
      }
    }
  }

  lemma CommitKeeps(w0: World, w: World, c: nat, message: string, dbOk: bool)
    requires Inv(w0, w) && Steps(w, Commit(c, message, dbOk))
    ensures Inv(w0, DoCommit(w, c, message, dbOk))
  {
    CommitKeepsCalls(w, c, message, dbOk);
    if CommitSucceeds(w, c, message, dbOk) {
      assert CallOk(w.orders, w.calls[c]);
      CommitWrites(w, c, message, dbOk);
      var e := Changed(w.calls[c].order, ReadyOp(w.calls[c]).value, message);
      ReplayExtends(Db(w0.orders, w0.outbox), w.log, Db(w.orders, w.outbox), e);
    }
  }

  /** A step that touches one call and neither table nor log. */
  lemma OneCallKeeps(w0: World, w: World, v: World, c: nat)
    requires Inv(w0, w) && c < |w.calls| == |v.calls| && v.calls == w.calls[c := v.calls[c]]
    requires v.orders == w.orders && v.outbox == w.outbox && v.log == w.log
    requires CallOk(w.orders, v.calls[c])
    ensures Inv(w0, v)
  {
  }

  lemma CreateStepKeeps(w0: World, w: World, l: Label)
    requires Inv(w0, w) && Steps(w, l)
    requires l.Lookup? || l.Check? || l.Reserve? || l.Undo? || l.Recheck?
    ensures Inv(w0, Step(w, l))
  {
    assert CallOk(w.orders, w.calls[l.c]);
    OneCallKeeps(w0, w, Step(w, l), l.c);
  }

  lemma ReadRowKeeps(w0: World, w: World, c: nat)
    requires Inv(w0, w) && Steps(w, ReadRow(c))
    ensures Inv(w0, DoReadRow(w, c))
  {
    assert CallOk(w.orders, w.calls[c]);
    OneCallKeeps(w0, w, DoReadRow(w, c), c);
  }

  lemma RemoteStepKeeps(w0: World, w: World, l: Label)
    requires Inv(w0, w) && Steps(w, l) && (l.ClaimCoupon? || l.MoveMoney?)
    ensures Inv(w0, Step(w, l))
  {
    assert CallOk(w.orders, w.calls[l.c]);
    OneCallKeeps(w0, w, Step(w, l), l.c);
  }

  lemma ReleaseKeeps(w0: World, w: World, c: nat, outcome: Outcome)
    requires Inv(w0, w) && Steps(w, Release(c, outcome))
    ensures Inv(w0, DoRelease(w, c, outcome))
  {
    assert CallOk(w.orders, w.calls[c]);
    OneCallKeeps(w0, w, DoRelease(w, c, outcome), c);
  }

  lemma StepKeeps(w0: World, w: World, l: Label)
    requires Inv(w0, w) && Steps(w, l)
    ensures Inv(w0, Step(w, l))
  {
    if l.Commit? {
      CommitKeeps(w0, w, l.c, l.message, l.dbOk);
    } else if l.Insert? {
      InsertKeeps(w0, w, l.c, l.fault);
    } else if l.Lookup? || l.Check? || l.Reserve? || l.Undo? || l.Recheck? {
      CreateStepKeeps(w0, w, l);
    } else if l.ReadRow? {
      ReadRowKeeps(w0, w, l.c);
    } else if l.ClaimCoupon? || l.MoveMoney? {
      RemoteStepKeeps(w0, w, l);
    } else if l.Release? {
      ReleaseKeeps(w0, w, l.c, l.outcome);
    }
  }

  /** Every interleaving, with every failure, leaves tables that a serial run of the committed
      operations leaves too, each one's guard true on the row it changed. */
  lemma {:induction false} EveryRunIsSerial(w0: World, ls: seq<Label>)
    requires Initial(w0) && Exec(w0, ls).Some?
    ensures Inv(w0, Exec(w0, ls).value)
  {
    if ls != [] {
      EveryRunIsSerial(w0, ls[..|ls| - 1]);
      StepKeeps(w0, Exec(w0, ls[..|ls| - 1]).value, ls[|ls| - 1]);
    }
  }

  // ---- consequences for one row -------------------------------------------------------------------

  /** The operations committed on row i, in commit order. */
  function OpsOf(log: seq<Entry>, i: nat): seq<Op> {
    if log == [] then []
    else
      var e := log[|log| - 1];
      OpsOf(log[..|log| - 1], i) + if e.Changed? && e.id == i then [e.op] else []
  }

  /** Each row as it was when it first appeared. */
  function Births(orders: seq<Order>, log: seq<Entry>): seq<Order> {
    if log == [] then orders
    else
      var e := log[|log| - 1];
      Births(orders, log[..|log| - 1]) + if e.Inserted? then [e.row] else []
  }

  function EventsOf(outbox: seq<Event>, i: nat): seq<Kind> {
    if outbox == [] then []
    else
      var e := outbox[|outbox| - 1];
      EventsOf(outbox[..|outbox| - 1], i) + if e.order == i then [e.kind] else []
  }

  lemma EventsOfAppend(outbox: seq<Event>, e: Event, i: nat)
    ensures EventsOf(outbox + [e], i) == EventsOf(outbox, i) + if e.order == i then [e.kind] else []
  {
    assert (outbox + [e])[..|outbox|] == outbox;
  }

  ghost predicate RowExplained(orders: seq<Order>, log: seq<Entry>, db: Db, i: nat) {
    var births := Births(orders, log);
    && |births| == |db.orders|
    && (i < |db.orders| ==> Chain(births[i], OpsOf(log, i)) && db.orders[i] == ApplyAll(births[i], OpsOf(log, i)))
    && (i >= |db.orders| ==> OpsOf(log, i) == [])
    && (forall k :: |orders| <= k < |births| ==> IsFresh(births[k]))
    && EventsOf(db.outbox, i) == Kinds(OpsOf(log, i))
  }

  lemma RowAfterChange(orders: seq<Order>, before: seq<Entry>, db: Db, e: Entry, i: nat)
    requires RowExplained(orders, before, db, i) && e.Changed? && Can(db, e)
    ensures var ops := OpsOf(before + [e], i);
      && (i < |db.orders| ==>
            && i < |Births(orders, before)|
            && Chain(Births(orders, before)[i], ops) && Did(db, e).orders[i] == ApplyAll(Births(orders, before)[i], ops))
      && (i >= |db.orders| ==> ops == [])
  {
    assert (before + [e])[..|before|] == before;
    if e.id == i {
      ChainExtends(Births(orders, before)[i], OpsOf(before, i), e.op);
    } else {
      assert OpsOf(before + [e], i) == OpsOf(before, i);
    }
  }

  lemma EventsAfterChange(before: seq<Entry>, db: Db, e: Entry, i: nat)
    requires EventsOf(db.outbox, i) == Kinds(OpsOf(before, i)) && e.Changed? && Can(db, e)
    ensures EventsOf(Did(db, e).outbox, i) == Kinds(OpsOf(before + [e], i))
  {
    assert (before + [e])[..|before|] == before;
    if e.id == i {
      KindsAppend(OpsOf(before, i), e.op);
    } else {
      assert OpsOf(before + [e], i) == OpsOf(before, i);
    }
    if EventKind(e.op).Some? {
      EventsOfAppend(db.outbox, EventsFor(e.op, e.id, Apply(db.orders[e.id], e.op), e.message)[0], i);
    } else {
      assert Did(db, e).outbox == db.outbox;
    }
  }

  lemma BirthsAppend(orders: seq<Order>, log: seq<Entry>, e: Entry)
    ensures Births(orders, log + [e]) == Births(orders, log) + if e.Inserted? then [e.row] else []
  {
    assert (log + [e])[..|log|] == log;
  }

  lemma StillExplained(orders: seq<Order>, before: seq<Entry>, db: Db, e: Entry, i: nat)
    requires RowExplained(orders, before, db, i) && Can(db, e)
    ensures RowExplained(orders, before + [e], Did(db, e), i)
  {
    BirthsAppend(orders, before, e);
    if e.Changed? {
      RowAfterChange(orders, before, db, e, i);
      EventsAfterChange(before, db, e, i);
    } else {
      assert (before + [e])[..|before|] == before;
      assert OpsOf(before + [e], i) == OpsOf(before, i);
    }
  }

  /** A row is its birth with its own operations applied, each enabled in turn; its outbox rows,
      in id order, are exactly those operations' events. */
  lemma {:induction false} Projection(db0: Db, log: seq<Entry>, i: nat)
    requires db0.outbox == [] && Replay(db0, log).Some?
    ensures RowExplained(db0.orders, log, Replay(db0, log).value, i)
  {
    if log != [] {
      var before, e := log[..|log| - 1], log[|log| - 1];
      assert log == before + [e];
      Projection(db0, before, i);
      StillExplained(db0.orders, before, Replay(db0, before).value, e, i);
    }
  }
}
