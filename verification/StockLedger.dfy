/** Where every unit of stock is, in every interleaving. */
module StockLedger {
  import opened Options
  import opened Sums
  import opened Orders
  import opened OrderSaga
  import opened Refinement

  function Quantity(p: int, o: Order): int {
    if o.product == p && IsLive(o.status) then o.quantity else 0
  }

  /** Stock that an unfinished create still holds. */
  function Held(p: int, c: Call): int {
    if c.Create? && c.product == p && (c.step.Holding? || c.step.Undoing?) then c.quantity else 0
  }

  /** Stock that a create took and will never give back: lost reply, or failed compensation. */
  function Leaked(p: int, c: Call): int {
    if c.Create? && c.product == p && c.leaked then c.quantity else 0
  }

  /** Stock that a cancel or reject gave back without (yet, or ever) committing. */
  function Freed(p: int, c: Call): int {
    if !c.Change? then 0
    else if c.progress.Working? && c.progress.released && c.progress.row.product == p then c.progress.row.quantity
    else if c.progress.RolledBack? && c.progress.freed && c.progress.was.product == p then c.progress.was.quantity
    else 0
  }

  function NetStock(p: int, c: Call): int { Held(p, c) + Leaked(p, c) - Freed(p, c) }

  ghost function LiveQuantity(p: int): Order -> int { (o: Order) => Quantity(p, o) }
  ghost function HeldBy(p: int): Call -> int { (c: Call) => Held(p, c) }
  ghost function LeakedBy(p: int): Call -> int { (c: Call) => Leaked(p, c) }
  ghost function FreedBy(p: int): Call -> int { (c: Call) => Freed(p, c) }
  ghost function NetOf(p: int): Call -> int { (c: Call) => NetStock(p, c) }

  ghost function Live(w: World, p: int): int { SumBy(LiveQuantity(p), w.orders) }

  ghost function Net(w: World, p: int): int { SumBy(NetOf(p), w.calls) }

  /** Stock on the shelf, in live orders and in the calls' hands. */
  ghost function Total(w: World, p: int): int { Stock(w, p) + Live(w, p) + Net(w, p) }

  /** Stock that came and went only by recorded moves. */
  ghost function Moves(w: World, p: int): int { Total(w, p) - Adjusted(w, p) }

  lemma NetOneCall(w: World, v: World, c: nat, p: int)
    requires c < |w.calls| == |v.calls| && v.calls == w.calls[c := v.calls[c]]
    ensures Net(v, p) == Net(w, p) - NetStock(p, w.calls[c]) + NetStock(p, v.calls[c])
  {
    SumUpdate(NetOf(p), w.calls, c, v.calls[c]);
  }

  /** A held reservation is never also a leaked one. */
  predicate CountedOnce(c: Call) {
    c.Create? && c.leaked ==> c.step.CreateFailed? || c.step.Rechecking? || c.step.Returned?
  }

  ghost predicate NoDoubleCount(w: World) { forall c :: 0 <= c < |w.calls| ==> CountedOnce(w.calls[c]) }

  /** A commit takes out of live orders what its transaction had put back on the shelf. */
  lemma CommitSettles(orders: seq<Order>, call: Call, p: int)
    requires CallOk(orders, call) && ReadyOp(call).Some?
    ensures var row, op := call.progress.row, ReadyOp(call).value;
      && Quantity(p, row) - Quantity(p, Apply(row, op)) == Freed(p, call)
      && NetStock(p, call) == -Freed(p, call)
  {
    ReadyIsEnabled(orders, call);
    assert call.progress.released <==> ReadyOp(call).value.Cancel? || ReadyOp(call).value.Reject?;
  }

  lemma CommitBalances(w: World, c: nat, message: string, dbOk: bool, p: int)
    requires Steps(w, Commit(c, message, dbOk)) && CallOk(w.orders, w.calls[c])
    ensures Moves(DoCommit(w, c, message, dbOk), p) == Moves(w, p)
  {
    var v := DoCommit(w, c, message, dbOk);
    var call := w.calls[c];
    NetOneCall(w, v, c, p);
    CommitSettles(w.orders, call, p);
    if CommitSucceeds(w, c, message, dbOk) {
      CommitWrites(w, c, message, dbOk);
      SumUpdate(LiveQuantity(p), w.orders, call.order, Apply(call.progress.row, ReadyOp(call).value));
      assert NetStock(p, v.calls[c]) == 0;
    } else {
      assert Freed(p, v.calls[c]) == Freed(p, call);
    }
  }

  lemma InsertedBalances(w: World, v: World, c: nat, row: Order, p: int)
    requires c < |w.calls| == |v.calls| && v.calls == w.calls[c := v.calls[c]]
    requires v.orders == w.orders + [row] && v.products == w.products && v.adjusted == w.adjusted
    requires NetStock(p, w.calls[c]) == NetStock(p, v.calls[c]) + Quantity(p, row)
    ensures Moves(v, p) == Moves(w, p)
  {
    NetOneCall(w, v, c, p);
    SumAppend(LiveQuantity(p), w.orders, row);
  }

  lemma NothingMoves(w: World, v: World, c: nat, p: int)
    requires c < |w.calls| == |v.calls| && v.calls == w.calls[c := v.calls[c]]
    requires v.orders == w.orders && v.products == w.products && v.adjusted == w.adjusted
    requires NetStock(p, w.calls[c]) == NetStock(p, v.calls[c])
    ensures Moves(v, p) == Moves(w, p)
  {
    NetOneCall(w, v, c, p);
  }

  lemma InsertBalances(w: World, c: nat, fault: InsertFault, p: int)
    requires Steps(w, Insert(c, fault)) && CountedOnce(w.calls[c])
    ensures Moves(DoInsert(w, c, fault), p) == Moves(w, p)
  {
    var v := DoInsert(w, c, fault);
    if v.calls[c].step.Created? {
      InsertedBalances(w, v, c, NewOrder(w.calls[c], w.calls[c].step.price), p);
    } else {
      NothingMoves(w, v, c, p);
    }
  }

  lemma ReserveBalances(w: World, c: nat, outcome: Outcome, price: nat, p: int)
    requires CreateAt(w, c, Admitted) && CountedOnce(w.calls[c])
    ensures Moves(DoReserve(w, c, outcome, price), p) == Moves(w, p)
  {
    NetOneCall(w, DoReserve(w, c, outcome, price), c, p);
  }

  lemma UndoBalances(w: World, c: nat, outcome: Outcome, p: int)
    requires Steps(w, Undo(c, outcome)) && CountedOnce(w.calls[c])
    ensures Moves(DoUndo(w, c, outcome), p) == Moves(w, p)
  {
    NetOneCall(w, DoUndo(w, c, outcome), c, p);
  }

  lemma ReleaseBalances(w: World, c: nat, outcome: Outcome, p: int)
    requires Steps(w, Release(c, outcome))
    ensures Moves(DoRelease(w, c, outcome), p) == Moves(w, p)
  {
    NetOneCall(w, DoRelease(w, c, outcome), c, p);
  }

  /** The remaining steps move no stock and change no call's claim to any. */
  lemma QuietCreateBalances(w: World, l: Label, p: int)
    requires Steps(w, l) && (l.Lookup? || l.Check? || l.Recheck?)
    ensures Moves(Step(w, l), p) == Moves(w, p)
  {
    NothingMoves(w, Step(w, l), l.c, p);
  }

  lemma QuietChangeBalances(w: World, l: Label, p: int)
    requires Steps(w, l) && (l.ReadRow? || l.ClaimCoupon? || l.MoveMoney?)
    ensures Moves(Step(w, l), p) == Moves(w, p)
  {
    NothingMoves(w, Step(w, l), l.c, p);
  }

  lemma CreateCountedOnce(w: World, l: Label)
    requires Steps(w, l) && OnCreate(l) && CountedOnce(w.calls[l.c])
    ensures CountedOnce(Step(w, l).calls[l.c])
  {
  }

  lemma NoDoubleCountKept(w: World, l: Label)
    requires NoDoubleCount(w) && Steps(w, l)
    ensures NoDoubleCount(Step(w, l))
  {
    if OnCreate(l) {
      CreateStepTouches(w, l);
      CreateCountedOnce(w, l);
    } else if OnChange(l) {
      ChangeStepTouches(w, l);
    }
  }

  lemma StartBalances(w: World, l: Label, p: int)
    requires Steps(w, l) && (l.StartCreate? || l.StartChange? || l.Admin?)
    ensures Moves(Step(w, l), p) == Moves(w, p)
  {
    if !l.Admin? { SumAppend(NetOf(p), w.calls, Step(w, l).calls[|w.calls|]); }
  }

  lemma StepBalances(w0: World, w: World, l: Label, p: int)
    requires Inv(w0, w) && NoDoubleCount(w) && Steps(w, l)
    ensures Moves(Step(w, l), p) == Moves(w, p)
  {
    if l.Commit? {
      CommitBalances(w, l.c, l.message, l.dbOk, p);
    } else if l.Insert? {
      InsertBalances(w, l.c, l.fault, p);
    } else if l.StartCreate? || l.StartChange? || l.Admin? {
      StartBalances(w, l, p);
    } else if l.Reserve? {
      ReserveBalances(w, l.c, l.outcome, l.price, p);
    } else if l.Undo? {
      UndoBalances(w, l.c, l.outcome, p);
    } else if l.Release? {
      ReleaseBalances(w, l.c, l.outcome, p);
    } else if l.Lookup? || l.Check? || l.Recheck? {
      QuietCreateBalances(w, l, p);
    } else {
      QuietChangeBalances(w, l, p);
    }
  }

  lemma {:induction false} TotalIsConserved(w0: World, ls: seq<Label>, p: int)
    requires Initial(w0) && Exec(w0, ls).Some?
    ensures NoDoubleCount(Exec(w0, ls).value)
    ensures Total(Exec(w0, ls).value, p) == Stock(w0, p) + Live(w0, p) + Adjusted(Exec(w0, ls).value, p)
  {
    if ls != [] {
      TotalIsConserved(w0, ls[..|ls| - 1], p);
      EveryRunIsSerial(w0, ls[..|ls| - 1]);
      StepBalances(w0, Exec(w0, ls[..|ls| - 1]).value, ls[|ls| - 1], p);
      NoDoubleCountKept(Exec(w0, ls[..|ls| - 1]).value, ls[|ls| - 1]);
    }
  }

  lemma {:induction false} NetSplits(calls: seq<Call>, p: int)
    ensures SumBy(NetOf(p), calls) == SumBy(HeldBy(p), calls) + SumBy(LeakedBy(p), calls) - SumBy(FreedBy(p), calls)
  {
    if calls != [] { NetSplits(calls[..|calls| - 1], p); }
  }

  /** The ledger: in every reachable state of every interleaving, per product,
      stock + live orders + held by unfinished creates + leaked
        = initial stock and live orders + admin edits + freed without a commit. */
  lemma Ledger(w0: World, ls: seq<Label>, p: int)
    requires Initial(w0) && Exec(w0, ls).Some?
    ensures var w := Exec(w0, ls).value;
      Stock(w, p) + Live(w, p) + SumBy(HeldBy(p), w.calls) + SumBy(LeakedBy(p), w.calls)
      == Stock(w0, p) + Live(w0, p) + Adjusted(w, p) + SumBy(FreedBy(p), w.calls)
  {
    TotalIsConserved(w0, ls, p);
    NetSplits(Exec(w0, ls).value.calls, p);
  }

  /** No oversell beyond what releases without a commit put back on the shelf. */
  lemma NoOversell(w0: World, ls: seq<Label>, p: int)
    requires Initial(w0) && Exec(w0, ls).Some?
    ensures var w := Exec(w0, ls).value;
      Live(w, p) <= Stock(w0, p) + Live(w0, p) + Adjusted(w, p) + SumBy(FreedBy(p), w.calls)
  {
    var w := Exec(w0, ls).value;
    Ledger(w0, ls, p);
    SumNonNegative(HeldBy(p), w.calls);
    SumNonNegative(LeakedBy(p), w.calls);
  }

  /** Apart from admin edits, stock falls only by a reservation of a product on sale, by the quantity
      asked for, which was there. */
  lemma StockFallsOnlyBySale(w: World, l: Label, p: int)
    requires Steps(w, l) && !l.Admin? && Stock(Step(w, l), p) < Stock(w, p)
    ensures l.Reserve? && p in w.products && w.products[p].onSale
    ensures w.calls[l.c].product == p
    ensures Stock(Step(w, l), p) == Stock(w, p) - w.calls[l.c].quantity
  {
  }

  // ---- which steps unbalance shelf and live orders -----------------------------------------------------

  /** A step that loses a reservation: the reserve takes effect and its reply is lost, or the release
      of a create that could not insert does not get through. */
  predicate Leaks(w: World, l: Label, p: int)
    requires Steps(w, l)
  {
    match l
    case Reserve(c, outcome, _) =>
      && outcome == LostReply && w.calls[c].product == p
      && p in w.products && w.products[p].onSale && Stock(w, p) >= w.calls[c].quantity
    case Undo(c, outcome) => w.calls[c].product == p && (outcome == Failed || p !in w.products)
    case _ => false
  }

  /** A step that leaves a release behind: it takes effect and its reply is lost, or the transaction
      that made it loses the commit. */
  predicate Strays(w: World, l: Label, p: int)
    requires Steps(w, l)
  {
    match l
    case Release(c, outcome) => outcome == LostReply && w.calls[c].progress.row.product == p && p in w.products
    case Commit(c, message, dbOk) =>
      && w.calls[c].progress.released && w.calls[c].progress.row.product == p
      && !CommitSucceeds(w, c, message, dbOk)
    case _ => false
  }

  function LeakedNow(w: World, l: Label, p: int): int
    requires Steps(w, l)
  {
    if Leaks(w, l, p) then w.calls[l.c].quantity else 0
  }

  function StrayedNow(w: World, l: Label, p: int): int
    requires Steps(w, l)
  {
    if Strays(w, l, p) then w.calls[l.c].progress.row.quantity else 0
  }

  /** The steps of a run that meet a guard, each judged in the state in which it is taken: whether
      there are any, and the quantities they are about. */
  predicate SomeLeak(w0: World, ls: seq<Label>, p: int) {
    ls != [] &&
      var front, l := ls[..|ls| - 1], ls[|ls| - 1];
      SomeLeak(w0, front, p) || match Exec(w0, front) case Some(w) => Steps(w, l) && Leaks(w, l, p) case None => false
  }

  predicate SomeStray(w0: World, ls: seq<Label>, p: int) {
    ls != [] &&
      var front, l := ls[..|ls| - 1], ls[|ls| - 1];
      SomeStray(w0, front, p) || match Exec(w0, front) case Some(w) => Steps(w, l) && Strays(w, l, p) case None => false
  }

  function LeakedAlong(w0: World, ls: seq<Label>, p: int): int {
    if ls == [] then 0
    else
      var front, l := ls[..|ls| - 1], ls[|ls| - 1];
      LeakedAlong(w0, front, p) +
      match Exec(w0, front) case Some(w) => (if Steps(w, l) then LeakedNow(w, l, p) else 0) case None => 0
  }

  function StrayedAlong(w0: World, ls: seq<Label>, p: int): int {
    if ls == [] then 0
    else
      var front, l := ls[..|ls| - 1], ls[|ls| - 1];
      StrayedAlong(w0, front, p) +
      match Exec(w0, front) case Some(w) => (if Steps(w, l) then StrayedNow(w, l, p) else 0) case None => 0
  }

  // what the steps leave on the calls

  predicate IsLeaked(p: int, c: Call) { c.Create? && c.product == p && c.leaked }

  predicate IsStray(p: int, c: Call) {
    c.Change? && c.progress.RolledBack? && c.progress.freed && c.progress.was.product == p
  }

  function Stray(p: int, c: Call): int { if IsStray(p, c) then c.progress.was.quantity else 0 }

  ghost function StrayBy(p: int): Call -> int { (c: Call) => Stray(p, c) }

  ghost predicate AnyLeaked(calls: seq<Call>, p: int) { exists c :: 0 <= c < |calls| && IsLeaked(p, calls[c]) }

  ghost predicate AnyStray(calls: seq<Call>, p: int) { exists c :: 0 <= c < |calls| && IsStray(p, calls[c]) }

  /** A create becomes leaked by meeting the guard and in no other way. */
  lemma LeakOfCall(w: World, l: Label, p: int)
    requires Steps(w, l) && OnCreate(l) && CountedOnce(w.calls[l.c])
    ensures var was, now := w.calls[l.c], Step(w, l).calls[l.c];
      && (IsLeaked(p, now) <==> IsLeaked(p, was) || Leaks(w, l, p))
      && Leaked(p, now) == Leaked(p, was) + LeakedNow(w, l, p)
  {
  }

  /** A release is left behind by meeting the guard and in no other way. */
  lemma StrayOfCall(w: World, l: Label, p: int)
    requires Steps(w, l) && (l.Release? || l.Commit?)
    ensures var was, now := w.calls[l.c], Step(w, l).calls[l.c];
      && (IsStray(p, now) <==> Strays(w, l, p)) && !IsStray(p, was)
      && Stray(p, now) == StrayedNow(w, l, p)
  {
  }

  lemma NoStrayOfCall(w: World, l: Label, p: int)
    requires Steps(w, l) && (l.ReadRow? || l.ClaimCoupon? || l.MoveMoney?) && CallOk(w.orders, w.calls[l.c])
    ensures !IsStray(p, w.calls[l.c]) && !IsStray(p, Step(w, l).calls[l.c])
  {
  }

  lemma LeakedUpdate(a: seq<Call>, c: nat, x: Call, p: int, guard: bool, q: int)
    requires c < |a| && (IsLeaked(p, x) <==> IsLeaked(p, a[c]) || guard) && Leaked(p, x) == Leaked(p, a[c]) + q
    ensures AnyLeaked(a[c := x], p) <==> AnyLeaked(a, p) || guard
    ensures SumBy(LeakedBy(p), a[c := x]) == SumBy(LeakedBy(p), a) + q
  {
    SumUpdate(LeakedBy(p), a, c, x);
    var b := a[c := x];
    assert b[c] == x && forall d :: 0 <= d < |a| && d != c ==> b[d] == a[d];
  }

  lemma StrayUpdate(a: seq<Call>, c: nat, x: Call, p: int, guard: bool, q: int)
    requires c < |a| && (IsStray(p, x) <==> IsStray(p, a[c]) || guard) && Stray(p, x) == Stray(p, a[c]) + q
    ensures AnyStray(a[c := x], p) <==> AnyStray(a, p) || guard
    ensures SumBy(StrayBy(p), a[c := x]) == SumBy(StrayBy(p), a) + q
  {
    SumUpdate(StrayBy(p), a, c, x);
    var b := a[c := x];
    assert b[c] == x && forall d :: 0 <= d < |a| && d != c ==> b[d] == a[d];
  }

  lemma NewCallIsClean(a: seq<Call>, x: Call, p: int)
    requires !IsLeaked(p, x) && !IsStray(p, x)
    ensures AnyLeaked(a + [x], p) <==> AnyLeaked(a, p)
    ensures AnyStray(a + [x], p) <==> AnyStray(a, p)
    ensures SumBy(LeakedBy(p), a + [x]) == SumBy(LeakedBy(p), a) && SumBy(StrayBy(p), a + [x]) == SumBy(StrayBy(p), a)
  {
    SumAppend(LeakedBy(p), a, x);
    SumAppend(StrayBy(p), a, x);
    assert forall c :: 0 <= c < |a| ==> (a + [x])[c] == a[c];
  }

  lemma LeakStep(w: World, l: Label, p: int)
    requires NoDoubleCount(w) && Steps(w, l)
    ensures AnyLeaked(Step(w, l).calls, p) <==> AnyLeaked(w.calls, p) || Leaks(w, l, p)
    ensures SumBy(LeakedBy(p), Step(w, l).calls) == SumBy(LeakedBy(p), w.calls) + LeakedNow(w, l, p)
  {
    var calls := Step(w, l).calls;
    if OnCreate(l) {
      CreateStepTouches(w, l);
      LeakOfCall(w, l, p);
      LeakedUpdate(w.calls, l.c, calls[l.c], p, Leaks(w, l, p), LeakedNow(w, l, p));
    } else if OnChange(l) {
      ChangeStepTouches(w, l);
      LeakedUpdate(w.calls, l.c, calls[l.c], p, false, 0);
    } else if !l.Admin? {
      NewCallIsClean(w.calls, calls[|w.calls|], p);
    }
  }

  lemma StrayStep(w: World, l: Label, p: int)
    requires CallsOk(w) && Steps(w, l)
    ensures AnyStray(Step(w, l).calls, p) <==> AnyStray(w.calls, p) || Strays(w, l, p)
    ensures SumBy(StrayBy(p), Step(w, l).calls) == SumBy(StrayBy(p), w.calls) + StrayedNow(w, l, p)
  {
    var calls := Step(w, l).calls;
    if OnCreate(l) {
      CreateStepTouches(w, l);
      StrayUpdate(w.calls, l.c, calls[l.c], p, false, 0);
    } else if OnChange(l) {
      ChangeStepTouches(w, l);
      if l.Release? || l.Commit? { StrayOfCall(w, l, p); } else { NoStrayOfCall(w, l, p); }
      StrayUpdate(w.calls, l.c, calls[l.c], p, Strays(w, l, p), StrayedNow(w, l, p));
    } else if !l.Admin? {
      NewCallIsClean(w.calls, calls[|w.calls|], p);
    }
  }

  /** In every run: some create is leaked exactly when some step met the guard for it, some release is
      left behind exactly when some step met that guard, and the quantities are those of the steps. */
  lemma {:induction false} MishapsAreTheGuards(w0: World, ls: seq<Label>, p: int)
    requires Initial(w0) && Exec(w0, ls).Some?
    ensures var w := Exec(w0, ls).value;
      && (AnyLeaked(w.calls, p) <==> SomeLeak(w0, ls, p))
      && (AnyStray(w.calls, p) <==> SomeStray(w0, ls, p))
      && SumBy(LeakedBy(p), w.calls) == LeakedAlong(w0, ls, p)
      && SumBy(StrayBy(p), w.calls) == StrayedAlong(w0, ls, p)
  {
    if ls != [] {
      var front := ls[..|ls| - 1];
      MishapsAreTheGuards(w0, front, p);
      TotalIsConserved(w0, front, p);
      EveryRunIsSerial(w0, front);
      LeakStep(Exec(w0, front).value, ls[|ls| - 1], p);
      StrayStep(Exec(w0, front).value, ls[|ls| - 1], p);
    }
  }

  // ---- once every request is over -----------------------------------------------------------------------

  predicate Finished(call: Call) {
    if call.Create? then call.step.Returned? || call.step.Created? || call.step.CreateFailed?
    else call.progress.Committed? || call.progress.RolledBack? || call.progress.Refused?
  }

  ghost predicate AllFinished(w: World) { forall c :: 0 <= c < |w.calls| ==> Finished(w.calls[c]) }

  lemma {:induction false} AtRestFreedIsStray(calls: seq<Call>, p: int)
    requires forall c :: 0 <= c < |calls| ==> Finished(calls[c])
    ensures SumBy(HeldBy(p), calls) == 0 && SumBy(FreedBy(p), calls) == SumBy(StrayBy(p), calls)
  {
    if calls != [] { AtRestFreedIsStray(calls[..|calls| - 1], p); }
  }

  /** Shelf and live orders then differ from the initial stock, live orders and admin edits by exactly
      what the steps that met a guard moved: they settle if and only if those quantities cancel out. */
  lemma SettlesExactlyWhen(w0: World, ls: seq<Label>, p: int)
    requires Initial(w0) && Exec(w0, ls).Some? && AllFinished(Exec(w0, ls).value)
    ensures var w := Exec(w0, ls).value; var due := Stock(w0, p) + Live(w0, p) + Adjusted(w, p);
      && Stock(w, p) + Live(w, p) == due + StrayedAlong(w0, ls, p) - LeakedAlong(w0, ls, p)
      && (Stock(w, p) + Live(w, p) == due <==> StrayedAlong(w0, ls, p) == LeakedAlong(w0, ls, p))
  {
    Ledger(w0, ls, p);
    MishapsAreTheGuards(w0, ls, p);
    AtRestFreedIsStray(Exec(w0, ls).value.calls, p);
  }

  lemma {:induction false} NoGuardNoQuantity(w0: World, ls: seq<Label>, p: int)
    ensures !SomeLeak(w0, ls, p) ==> LeakedAlong(w0, ls, p) == 0
    ensures !SomeStray(w0, ls, p) ==> StrayedAlong(w0, ls, p) == 0
  {
    if ls != [] { NoGuardNoQuantity(w0, ls[..|ls| - 1], p); }
  }

  /** Both correction terms vanish exactly in the runs in which no step met its guard: no create is
      left leaked and no release left behind. Then all stock is accounted for. Refusals, failed
      payments, duplicate creates and lost commits without a release are all allowed. */
  lemma SmoothRunsSettle(w0: World, ls: seq<Label>, p: int)
    requires Initial(w0) && Exec(w0, ls).Some? && AllFinished(Exec(w0, ls).value)
    ensures var w := Exec(w0, ls).value;
      && (!AnyLeaked(w.calls, p) && !AnyStray(w.calls, p) <==> !SomeLeak(w0, ls, p) && !SomeStray(w0, ls, p))
      && (!SomeLeak(w0, ls, p) && !SomeStray(w0, ls, p) ==>
            Stock(w, p) + Live(w, p) == Stock(w0, p) + Live(w0, p) + Adjusted(w, p))
  {
    MishapsAreTheGuards(w0, ls, p);
    SettlesExactlyWhen(w0, ls, p);
    NoGuardNoQuantity(w0, ls, p);
  }

  /** Products are never deleted, so a create that holds stock can always give it back: in a reachable
      state the compensation leaks only when the call itself fails. */
  predicate HeldExists(products: map<int, Product>, c: Call) {
    c.Create? && (c.step.Holding? || c.step.Undoing?) ==> c.product in products
  }

  ghost predicate HeldExist(w: World) { forall c :: 0 <= c < |w.calls| ==> HeldExists(w.products, w.calls[c]) }

  lemma CreateHeldExists(w: World, l: Label)
    requires Steps(w, l) && OnCreate(l) && HeldExists(w.products, w.calls[l.c])
    ensures HeldExists(Step(w, l).products, Step(w, l).calls[l.c])
  {
  }

  lemma ProductsStay(w: World, l: Label)
    requires Steps(w, l)
    ensures w.products.Keys <= Step(w, l).products.Keys
  {
  }

  lemma HeldExistKept(w: World, l: Label)
    requires HeldExist(w) && Steps(w, l)
    ensures HeldExist(Step(w, l))
  {
    ProductsStay(w, l);
    if OnCreate(l) {
      CreateStepTouches(w, l);
      CreateHeldExists(w, l);
    } else if OnChange(l) {
      ChangeStepTouches(w, l);
    }
  }

  lemma {:induction false} HeldAlwaysExist(w0: World, ls: seq<Label>)
    requires Initial(w0) && Exec(w0, ls).Some?
    ensures HeldExist(Exec(w0, ls).value)
  {
    if ls != [] {
      HeldAlwaysExist(w0, ls[..|ls| - 1]);
      HeldExistKept(Exec(w0, ls[..|ls| - 1]).value, ls[|ls| - 1]);
    }
  }

  lemma UndoLeaksOnlyByFailing(w0: World, ls: seq<Label>, c: nat, outcome: Outcome, p: int)
    requires Initial(w0) && Exec(w0, ls).Some? && Steps(Exec(w0, ls).value, Undo(c, outcome))
    ensures Leaks(Exec(w0, ls).value, Undo(c, outcome), p)
      <==> outcome == Failed && Exec(w0, ls).value.calls[c].product == p
  {
    HeldAlwaysExist(w0, ls);
  }

  const RACE_ROW := Order(7, Some("R"), 1, 2, 500, Some(500), None, None, Paying, None, None, None, 0)
  const RACE_START := World(map[1 := Product(5, true)], [RACE_ROW], [], [], [], map[])

  function RaceWorld(stock: nat, a: ChangeStep, b: ChangeStep): World {
    RACE_START.(products := map[1 := Product(stock, true)],
                calls := [Change(ToCancel, 0, Some(7), a), Change(ToCancel, 0, Some(7), b)])
  }

  const IDLE := Working(RACE_ROW, Opened(ToCancel, RACE_ROW), None, None, false)
  const HELD := Working(RACE_ROW, Opened(ToCancel, RACE_ROW), None, None, true)

  lemma Ran(w0: World, ls: seq<Label>, w: World, l: Label) returns (ms: seq<Label>)
    requires Exec(w0, ls) == Some(w) && Steps(w, l)
    ensures Exec(w0, ms) == Some(Step(w, l))
  {
    ms := ls + [l];
    assert ms[..|ls|] == ls;
  }

  lemma RacingReads() returns (ls: seq<Label>)
    ensures Exec(RACE_START, ls) == Some(RaceWorld(5, IDLE, IDLE))
  {
    var e := StartChange(ToCancel, 0, Some(7));
    ls := Ran(RACE_START, [], RACE_START, e);
    ls := Ran(RACE_START, ls, Step(RACE_START, e), e);
    assert Step(Step(RACE_START, e), e) == RaceWorld(5, Waiting, Waiting);
    ls := Ran(RACE_START, ls, RaceWorld(5, Waiting, Waiting), ReadRow(0));
    assert Step(RaceWorld(5, Waiting, Waiting), ReadRow(0)) == RaceWorld(5, IDLE, Waiting);
    ls := Ran(RACE_START, ls, RaceWorld(5, IDLE, Waiting), ReadRow(1));
    assert Step(RaceWorld(5, IDLE, Waiting), ReadRow(1)) == RaceWorld(5, IDLE, IDLE);
  }

  lemma RacingReleases() returns (ls: seq<Label>)
    ensures Exec(RACE_START, ls) == Some(RaceWorld(9, HELD, HELD))
  {
    ls := RacingReads();
    ls := Ran(RACE_START, ls, RaceWorld(5, IDLE, IDLE), Release(0, Done));
    assert Step(RaceWorld(5, IDLE, IDLE), Release(0, Done)) == RaceWorld(7, HELD, IDLE);
    ls := Ran(RACE_START, ls, RaceWorld(7, HELD, IDLE), Release(1, Done));
    assert Step(RaceWorld(7, HELD, IDLE), Release(1, Done)) == RaceWorld(9, HELD, HELD);
  }

  lemma FirstCancelCommits(w: World)
    requires w == RaceWorld(9, HELD, HELD)
    ensures Steps(w, Commit(0, "m", true))
    ensures var v := Step(w, Commit(0, "m", true));
      && v.orders == [Apply(RACE_ROW, Cancel)] && v.products == w.products
      && v.calls == RaceWorld(9, Committed(Cancel), HELD).calls
  {
  }

  lemma SecondCancelLoses(w: World, v: World)
    requires w == RaceWorld(9, HELD, HELD) && Steps(w, Commit(0, "m", true)) && v == Step(w, Commit(0, "m", true))
    ensures Steps(v, Commit(1, "n", true))
    ensures var u := Step(v, Commit(1, "n", true));
      && u.orders == [Apply(RACE_ROW, Cancel)] && u.products == w.products
      && u.calls == RaceWorld(9, Committed(Cancel), RolledBack(RACE_ROW, true)).calls
  {
    FirstCancelCommits(w);
  }

  /** And some runs do not settle: two cancels of one order both release before either commits; the
      loser of the version check rolls back, but the shelf keeps its two extra units. */
  lemma RacingCancelsInflateStock() returns (ls: seq<Label>)
    ensures Initial(RACE_START) && Exec(RACE_START, ls).Some?
    ensures var w := Exec(RACE_START, ls).value;
      && AllFinished(w)
      && Stock(w, 1) + Live(w, 1) == Stock(RACE_START, 1) + Live(RACE_START, 1) + 2
  {
    ls := RacingReleases();
    var w := RaceWorld(9, HELD, HELD);
    FirstCancelCommits(w);
    var v := Step(w, Commit(0, "m", true));
    SecondCancelLoses(w, v);
    ls := Ran(RACE_START, ls, w, Commit(0, "m", true));
    ls := Ran(RACE_START, ls, v, Commit(1, "n", true));
    SumSingle(LiveQuantity(1), RACE_START.orders, 0);
    SumSingle(LiveQuantity(1), [Apply(RACE_ROW, Cancel)], 0);
  }
}
