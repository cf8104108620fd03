/** What one request does when nothing gets in its way: the exact tables, stock, event and answer that
    it leaves, from any state of the system and whatever else is under way. */
module Requests {
  import opened Options
  import opened Orders
  import opened OrderSaga
  import Calendar

  /** The world with one more call, the latest. */
  function With(w: World, call: Call): World { w.(calls := w.calls + [call]) }

  predicate Goes(w: World, l: Label, v: World) { Steps(w, l) && Step(w, l) == v }

  /** The labels lead through the worlds, from the first to the last. */
  ghost predicate Route(ws: seq<World>, ls: seq<Label>) {
    |ws| == |ls| + 1 && forall k :: 0 <= k < |ls| ==> Goes(ws[k], ls[k], ws[k + 1])
  }

  /** A route is a run. */
  lemma {:induction false} RouteIsRun(ws: seq<World>, ls: seq<Label>)
    requires Route(ws, ls)
    ensures Exec(ws[0], ls) == Some(ws[|ls|])
  {
    if ls != [] {
      var n := |ls| - 1;
      assert Goes(ws[n], ls[n], ws[n + 1]);
      RouteIsRun(ws[..n + 1], ls[..n]);
    }
  }

  lemma Route2(w: World, k: Label, v1: World, l: Label, v2: World)
    requires Goes(w, k, v1) && Goes(v1, l, v2)
    ensures Route([w, v1, v2], [k, l])
  {
  }

  lemma Route3(w: World, k: Label, v1: World, l: Label, v2: World, m: Label, v3: World)
    requires Goes(w, k, v1) && Goes(v1, l, v2) && Goes(v2, m, v3)
    ensures Route([w, v1, v2, v3], [k, l, m])
  {
  }

  lemma Route4(w: World, k: Label, v1: World, l: Label, v2: World, m: Label, v3: World, n: Label, v4: World)
    requires Goes(w, k, v1) && Goes(v1, l, v2) && Goes(v2, m, v3) && Goes(v3, n, v4)
    ensures Route([w, v1, v2, v3, v4], [k, l, m, n])
  {
  }

  lemma Route5(w: World, k: Label, v1: World, l: Label, v2: World, m: Label, v3: World, n: Label, v4: World, o: Label, v5: World)
    requires Goes(w, k, v1) && Goes(v1, l, v2) && Goes(v2, m, v3) && Goes(v3, n, v4) && Goes(v4, o, v5)
    ensures Route([w, v1, v2, v3, v4, v5], [k, l, m, n, o])
  {
    var ws, ls := [w, v1, v2, v3, v4, v5], [k, l, m, n, o];
    assert Goes(ws[0], ls[0], ws[1]) && Goes(ws[1], ls[1], ws[2]) && Goes(ws[2], ls[2], ws[3]);
    assert Goes(ws[3], ls[3], ws[4]) && Goes(ws[4], ls[4], ws[5]);
  }

  lemma LastCallChanges(w: World, x: Call, y: Call)
    ensures SetCall(With(w, x), |w.calls|, y) == With(w, y)
  {
    assert (w.calls + [x])[|w.calls| := y] == w.calls + [y];
  }

  ghost predicate Unused(orders: seq<Order>, user: int, requestNo: string) {
    forall i :: 0 <= i < |orders| ==> !HasKey(orders[i], user, requestNo)
  }

  lemma OnlyOneFound(orders: seq<Order>, user: int, requestNo: string, i: nat)
    requires UniqueKeys(orders) && i < |orders| && HasKey(orders[i], user, requestNo)
    ensures Find(orders, user, requestNo) == Some(i)
  {
  }

  // ---- create ------------------------------------------------------------------------------------------

  /** A create in its first steps. */
  function Asking(user: int, requestNo: string, product: int, quantity: nat, step: CreateStep): Call {
    Create(user, requestNo, product, quantity, step, false)
  }

  lemma LookupAlone(w: World, call: Call)
    requires call.Create? && call.step == Starting
    ensures Unused(w.orders, call.user, call.requestNo) ==>
      Goes(With(w, call), Lookup(|w.calls|), With(w, call.(step := Looked)))
    ensures forall i :: 0 <= i < |w.orders| && UniqueKeys(w.orders) && HasKey(w.orders[i], call.user, call.requestNo) ==>
      Goes(With(w, call), Lookup(|w.calls|), With(w, call.(step := Returned(i))))
  {
    var found := Find(w.orders, call.user, call.requestNo);
    LastCallChanges(w, call, call.(step := if found.Some? then Returned(found.value) else Looked));
    forall i | 0 <= i < |w.orders| && UniqueKeys(w.orders) && HasKey(w.orders[i], call.user, call.requestNo) ensures found == Some(i) {
      OnlyOneFound(w.orders, call.user, call.requestNo, i);
    }
  }

  lemma CheckAlone(w: World, call: Call, onSale: bool, stock: int, reached: bool)
    requires call.Create? && call.step == Looked
    ensures Goes(With(w, call), Check(|w.calls|, onSale, stock, reached),
      With(w, call.(step := if reached && onSale && stock >= call.quantity then Admitted else CreateFailed)))
  {
    LastCallChanges(w, call, call.(step := if reached && onSale && stock >= call.quantity then Admitted else CreateFailed));
  }

  /** Stock p less q. */
  function Sold(w: World, p: int, q: int): World
    requires p in w.products && q <= w.products[p].stock
  {
    w.(products := w.products[p := Product(w.products[p].stock - q, w.products[p].onSale)])
  }

  predicate ForSale(w: World, p: int, q: nat) { p in w.products && w.products[p].onSale && w.products[p].stock >= q }

  lemma ReserveAlone(w: World, call: Call, price: nat)
    requires call.Create? && call.step == Admitted
    ensures ForSale(w, call.product, call.quantity) ==>
      Goes(With(w, call), Reserve(|w.calls|, Done, price),
        With(Sold(w, call.product, call.quantity), call.(step := Holding(price))))
    ensures !ForSale(w, call.product, call.quantity) ==>
      Goes(With(w, call), Reserve(|w.calls|, Done, price), With(w, call.(step := CreateFailed)))
  {
    LastCallChanges(w, call, call.(step := CreateFailed));
    if ForSale(w, call.product, call.quantity) {
      var v := Sold(w, call.product, call.quantity);
      LastCallChanges(v, call, call.(step := Holding(price)));
      assert Restock(With(w, call), call.product, Stock(w, call.product) - call.quantity) == With(v, call);
    }
  }

  /** The row of an order waiting for payment of an amount. */
  function Bought(call: Call, amount: int): Order
    requires call.Create?
  {
    Order(call.user, Some(call.requestNo), call.product, call.quantity, amount, Some(amount), None, None,
          Paying, None, None, None, 0)
  }

  function WithRow(w: World, row: Order): World { w.(orders := w.orders + [row], log := w.log + [Inserted(row)]) }

  lemma InsertAlone(w: World, call: Call)
    requires call.Create? && call.step.Holding? && Unused(w.orders, call.user, call.requestNo)
    ensures Goes(With(w, call), Insert(|w.calls|, NoFault),
      With(WithRow(w, Bought(call, call.step.price * call.quantity)), call.(step := Created(|w.orders|, call.step.price))))
  {
    LastCallChanges(w, call, call.(step := Created(|w.orders|, call.step.price)));
  }

  /** A create with a new request number for a product on sale and in stock: the order is there, waiting
      for payment, at price times quantity; the stock is less by the quantity; nothing else has changed. */
  lemma CreateAlone(w: World, user: int, requestNo: string, p: int, q: nat, price: nat) returns (ws: seq<World>, v: World)
    requires q > 0 && Unused(w.orders, user, requestNo) && ForSale(w, p, q)
    ensures var c := |w.calls|;
      Route(ws, [StartCreate(user, requestNo, p, q), Lookup(c), Check(c, true, w.products[p].stock, true),
                 Reserve(c, Done, price), Insert(c, NoFault)])
    ensures ws[0] == w && ws[5] == v
    ensures v.orders == w.orders + [Order(user, Some(requestNo), p, q, price * q, Some(price * q), None, None,
                                          Paying, None, None, None, 0)]
    ensures v.products == w.products[p := Product(w.products[p].stock - q, true)] && v.outbox == w.outbox
    ensures v.calls == w.calls + [Create(user, requestNo, p, q, Created(|w.orders|, price), false)]
  {
    var c, call, stock := |w.calls|, Asking(user, requestNo, p, q, Starting), w.products[p].stock;
    var looked, admitted, holding := call.(step := Looked), call.(step := Admitted), call.(step := Holding(price));
    LookupAlone(w, call);
    CheckAlone(w, looked, true, stock, true);
    ReserveAlone(w, admitted, price);
    InsertAlone(Sold(w, p, q), holding);
    v := With(WithRow(Sold(w, p, q), Bought(call, price * q)), call.(step := Created(|w.orders|, price)));
    Route5(w, StartCreate(user, requestNo, p, q), With(w, call), Lookup(c), With(w, looked), Check(c, true, stock, true),
      With(w, admitted), Reserve(c, Done, price), With(Sold(w, p, q), holding), Insert(c, NoFault), v);
    ws := [w, With(w, call), With(w, looked), With(w, admitted), With(Sold(w, p, q), holding), v];
  }

  /** A create whose request number has an order already is answered with it, and changes nothing. */
  lemma RepeatAlone(w: World, user: int, requestNo: string, p: int, q: nat, i: nat) returns (ws: seq<World>)
    requires q > 0 && UniqueKeys(w.orders) && i < |w.orders| && HasKey(w.orders[i], user, requestNo)
    ensures Route(ws, [StartCreate(user, requestNo, p, q), Lookup(|w.calls|)]) && ws[0] == w
    ensures ws[2] == With(w, Create(user, requestNo, p, q, Returned(i), false))
  {
    var call := Asking(user, requestNo, p, q, Starting);
    LookupAlone(w, call);
    ws := [w, With(w, call), With(w, call.(step := Returned(i)))];
    Route2(w, StartCreate(user, requestNo, p, q), ws[1], Lookup(|w.calls|), ws[2]);
  }

  /** A create of a product that the snapshot shows off sale or short of stock, or that gets no snapshot,
      fails and changes nothing; so does one whose snapshot was good when the stock is gone by the time of
      the reservation. */
  lemma CreateRefused(
    w: World, user: int, requestNo: string, p: int, q: nat, onSale: bool, stock: int, reached: bool, price: nat)
    returns (ws: seq<World>, ls: seq<Label>)
    requires q > 0 && Unused(w.orders, user, requestNo) && (reached && onSale && stock >= q ==> !ForSale(w, p, q))
    ensures var c := |w.calls|;
      ls == if reached && onSale && stock >= q
            then [StartCreate(user, requestNo, p, q), Lookup(c), Check(c, onSale, stock, reached), Reserve(c, Done, price)]
            else [StartCreate(user, requestNo, p, q), Lookup(c), Check(c, onSale, stock, reached)]
    ensures Route(ws, ls) && ws[0] == w
    ensures ws[|ls|] == With(w, Create(user, requestNo, p, q, CreateFailed, false))
  {
    var c, call := |w.calls|, Asking(user, requestNo, p, q, Starting);
    var looked, admitted, failed := call.(step := Looked), call.(step := Admitted), call.(step := CreateFailed);
    var start, check := StartCreate(user, requestNo, p, q), Check(c, onSale, stock, reached);
    LookupAlone(w, call);
    CheckAlone(w, looked, onSale, stock, reached);
    if reached && onSale && stock >= q {
      ReserveAlone(w, admitted, price);
      Route4(w, start, With(w, call), Lookup(c), With(w, looked), check, With(w, admitted), Reserve(c, Done, price), With(w, failed));
      ls := [start, Lookup(c), check, Reserve(c, Done, price)];
      ws := [w, With(w, call), With(w, looked), With(w, admitted), With(w, failed)];
    } else {
      Route3(w, start, With(w, call), Lookup(c), With(w, looked), check, With(w, failed));
      ls := [start, Lookup(c), check];
      ws := [w, With(w, call), With(w, looked), With(w, failed)];
    }
  }

  /** Stock p more by q. */
  function Restored(w: World, p: int, q: nat): World
    requires p in w.products
  {
    w.(products := w.products[p := Product(w.products[p].stock + q, w.products[p].onSale)])
  }

  lemma UndoAlone(w: World, call: Call)
    requires call.Create? && call.step.Undoing? && call.product in w.products
    ensures Goes(With(w, call), Undo(|w.calls|, Done), With(
      Restored(w, call.product, call.quantity), call.(step := if call.step.duplicate then Rechecking else CreateFailed)))
  {
    var v := Restored(w, call.product, call.quantity);
    LastCallChanges(v, call, call.(step := if call.step.duplicate then Rechecking else CreateFailed));
    assert Restock(With(w, call), call.product, Stock(w, call.product) + call.quantity) == With(v, call);
  }

  lemma InsertLoses(w: World, call: Call, winner: Option<nat>, fault: InsertFault)
    requires call.Create? && call.step.Holding? && UniqueKeys(w.orders)
    requires winner.Some? ==> winner.value < |w.orders| && HasKey(w.orders[winner.value], call.user, call.requestNo)
    requires winner.None? ==> Unused(w.orders, call.user, call.requestNo) && fault != NoFault
    ensures Goes(With(w, call), Insert(|w.calls|, fault),
      With(w, call.(step := Undoing(winner.Some? || fault == IntegrityFault))))
  {
    if winner.Some? { OnlyOneFound(w.orders, call.user, call.requestNo, winner.value); }
    LastCallChanges(w, call, call.(step := Undoing(winner.Some? || fault == IntegrityFault)));
  }

  lemma RecheckAlone(w: World, call: Call, winner: Option<nat>)
    requires call.Create? && call.step == Rechecking && UniqueKeys(w.orders)
    requires winner.Some? ==> winner.value < |w.orders| && HasKey(w.orders[winner.value], call.user, call.requestNo)
    requires winner.None? ==> Unused(w.orders, call.user, call.requestNo)
    ensures Goes(With(w, call), Recheck(|w.calls|),
      With(w, call.(step := if winner.Some? then Returned(winner.value) else CreateFailed)))
  {
    if winner.Some? { OnlyOneFound(w.orders, call.user, call.requestNo, winner.value); }
    LastCallChanges(w, call, call.(step := if winner.Some? then Returned(winner.value) else CreateFailed));
  }

  /** A create that holds its reservation and finds the request number taken, or cannot insert for another
      reason: the stock is back, and the answer is the order that won, or an error. */
  lemma LoserGivesBack(w: World, call: Call, winner: Option<nat>, fault: InsertFault) returns (ws: seq<World>, ls: seq<Label>)
    requires call.Create? && call.step.Holding? && call.product in w.products && UniqueKeys(w.orders)
    requires winner.Some? ==> winner.value < |w.orders| && HasKey(w.orders[winner.value], call.user, call.requestNo)
    requires winner.None? ==> Unused(w.orders, call.user, call.requestNo) && fault != NoFault
    ensures var c := |w.calls|;
      ls == if winner.Some? || fault == IntegrityFault then [Insert(c, fault), Undo(c, Done), Recheck(c)]
            else [Insert(c, fault), Undo(c, Done)]
    ensures Route(ws, ls) && ws[0] == With(w, call)
    ensures ws[|ls|] == With(Restored(w, call.product, call.quantity),
      call.(step := if winner.Some? then Returned(winner.value) else CreateFailed))
  {
    var c, start := |w.calls|, With(w, call);
    var duplicate := winner.Some? || fault == IntegrityFault;
    var undoing, rechecking := call.(step := Undoing(duplicate)), call.(step := Rechecking);
    var ended := call.(step := if winner.Some? then Returned(winner.value) else CreateFailed);
    var v := Restored(w, call.product, call.quantity);
    InsertLoses(w, call, winner, fault);
    UndoAlone(w, undoing);
    if duplicate {
      RecheckAlone(v, rechecking, winner);
      Route3(start, Insert(c, fault), With(w, undoing), Undo(c, Done), With(v, rechecking), Recheck(c), With(v, ended));
      ls := [Insert(c, fault), Undo(c, Done), Recheck(c)];
      ws := [start, With(w, undoing), With(v, rechecking), With(v, ended)];
    } else {
      Route2(start, Insert(c, fault), With(w, undoing), Undo(c, Done), With(v, ended));
      ls := [Insert(c, fault), Undo(c, Done)];
      ws := [start, With(w, undoing), With(v, ended)];
    }
  }

  // ---- pay, cancel, approve, reject, complete --------------------------------------------------------------

  /** Whether the row may be worked on, spelled out. */
  predicate Accepts(intent: Intent, o: Order) {
    match intent
    case ToPay => o.status == Paying
    case ToCancel => o.status in {PendingApproval, PaidPendingApproval, Paying}
    case ToApprove(_) => o.status in {PendingApproval, PaidPendingApproval}
    case ToReject => o.status in {PendingApproval, PaidPendingApproval}
    case ToComplete(now) =>
      o.status == Shipping && o.completeTime.None? && o.expectedDelivery.Some? && o.expectedDelivery.value <= now
  }

  predicate MayTouch(caller: Option<int>, o: Order) { caller.None? || caller == Some(o.user) }

  function Begun(intent: Intent, i: nat, caller: Option<int>, progress: ChangeStep): Call { Change(intent, i, caller, progress) }

  predicate Takes(w: World, intent: Intent, i: nat, caller: Option<int>) {
    i < |w.orders| && MayTouch(caller, w.orders[i]) && Accepts(intent, w.orders[i])
  }

  function Taken(w: World, intent: Intent, i: nat, caller: Option<int>): Call {
    Begun(intent, i, caller,
      if Takes(w, intent, i, caller) then Working(w.orders[i], Opened(intent, w.orders[i]), None, None, false) else Refused)
  }

  lemma ReadRowAlone(w: World, intent: Intent, i: nat, caller: Option<int>)
    ensures Goes(w, StartChange(intent, i, caller), With(w, Begun(intent, i, caller, Waiting)))
    ensures Goes(With(w, Begun(intent, i, caller, Waiting)), ReadRow(|w.calls|), With(w, Taken(w, intent, i, caller)))
  {
    LastCallChanges(w, Begun(intent, i, caller, Waiting), Taken(w, intent, i, caller));
  }

  /** A request is taken up exactly on an order that exists, is the caller's or an admin's business, and
      is in the right status; otherwise it is refused and nothing has changed. */
  lemma ReadAlone(w: World, intent: Intent, i: nat, caller: Option<int>) returns (ws: seq<World>)
    ensures Route(ws, [StartChange(intent, i, caller), ReadRow(|w.calls|)]) && ws[0] == w
    ensures ws[2] == With(w, Taken(w, intent, i, caller))
    ensures Taken(w, intent, i, caller).progress.Working? <==>
      i < |w.orders| && (caller.None? || caller == Some(w.orders[i].user)) && Accepts(intent, w.orders[i])
    ensures !Taken(w, intent, i, caller).progress.Working? ==> Taken(w, intent, i, caller).progress == Refused
  {
    ReadRowAlone(w, intent, i, caller);
    ws := [w, With(w, Begun(intent, i, caller, Waiting)), With(w, Taken(w, intent, i, caller))];
    Route2(w, StartChange(intent, i, caller), ws[1], ReadRow(|w.calls|), ws[2]);
  }

  /** The tables after a commit on row i: that row, its event, nothing else. */
  ghost predicate LeftBehind(w: World, v: World, i: nat, row: Order, events: seq<Event>, call: Call) {
    && i < |w.orders| && v.orders == w.orders[i := row] && v.outbox == w.outbox + events
    && v.calls == w.calls + [call]
  }

  function CommittedTo(w: World, call: Call, op: Op, message: string, row: Order): World
    requires call.Change? && call.order < |w.orders|
  {
    With(w, call.(progress := Committed(op))).(
      orders := w.orders[call.order := row],
      outbox := w.outbox +
        (match EventKind(op) case Some(k) => [Event(message, k, call.order, row.status, row.total)] case None => []),
      log := w.log + [Changed(call.order, op, message)])
  }

  lemma CommitLeaves(w: World, u: World, call: Call, op: Op, message: string, row: Order)
    requires call.Change? && call.order < |w.orders|
    requires u.orders == w.orders && u.outbox == w.outbox && u.calls == w.calls
    ensures var v := CommittedTo(u, call, op, message, row);
      && v.products == u.products
      && LeftBehind(w, v, call.order, row,
           match EventKind(op) case Some(k) => [Event(message, k, call.order, row.status, row.total)] case None => [],
           call.(progress := Committed(op)))
  {
  }

  lemma CommitAlone(w: World, call: Call, op: Op, message: string)
    requires call.Change? && call.order < |w.orders| && ReadyOp(call) == Some(op)
    requires call.progress.row == w.orders[call.order] && FreshMessage(w.outbox, message)
    ensures Goes(With(w, call), Commit(|w.calls|, message, true),
      CommittedTo(w, call, op, message, call.progress.managed.(version := call.progress.managed.version + 1)))
  {
    LastCallChanges(w, call, call.(progress := Committed(op)));
    assert CommitSucceeds(With(w, call), |w.calls|, message, true);
  }

  lemma ClaimAlone(w: World, i: nat, claim: Claim)
    requires i < |w.orders| && w.orders[i].status == Paying && ClaimFits(w.orders[i], claim)
    ensures var o := w.orders[i]; var caller := Some(o.user);
      var call := Begun(ToPay, i, caller, Working(o, o, None, None, false));
      Goes(With(w, call), ClaimCoupon(|w.calls|, Some(claim)),
        With(w, Begun(ToPay, i, caller, Working(o, Prepare(o, claim), Some(claim), None, false))))
  {
    var o := w.orders[i];
    LastCallChanges(w, Begun(ToPay, i, Some(o.user), Working(o, o, None, None, false)),
      Begun(ToPay, i, Some(o.user), Working(o, Prepare(o, claim), Some(claim), None, false)));
  }

  lemma ChargeAlone(w: World, i: nat, o: Order, claim: Claim, charged: int, managed: Order)
    requires managed == Prepare(o, claim) && charged == PayableAmount(managed)
    ensures var call := Begun(ToPay, i, Some(o.user), Working(o, managed, Some(claim), None, false));
      Goes(With(w, call), MoveMoney(|w.calls|, true), With(w, Begun(ToPay, i, Some(o.user),
        Working(o, managed.(status := PaidPendingApproval, total := charged), Some(claim), Some(charged), false))))
  {
    LastCallChanges(w, Begun(ToPay, i, Some(o.user), Working(o, managed, Some(claim), None, false)),
      Begun(ToPay, i, Some(o.user),
        Working(o, managed.(status := PaidPendingApproval, total := charged), Some(claim), Some(charged), false)));
  }

  /** A payment: the amount charged and the money columns are those of the platform's answer, the order
      waits for approval, and the event says so. */
  lemma PayAlone(w: World, i: nat, claim: Claim, message: string) returns (ws: seq<World>, v: World, charged: int)
    requires i < |w.orders| && w.orders[i].status == Paying && ClaimFits(w.orders[i], claim) && FreshMessage(w.outbox, message)
    ensures var c := |w.calls|;
      Route(ws, [StartChange(ToPay, i, Some(w.orders[i].user)), ReadRow(c), ClaimCoupon(c, Some(claim)), MoveMoney(c, true),
                 Commit(c, message, true)])
    ensures ws[0] == w && ws[5] == v && v.products == w.products && i < |v.orders|
    ensures PaidAs(w.orders[i], v.orders[i], claim, charged)
    ensures var o := w.orders[i]; var n := v.orders[i];
      n == o.(origin := n.origin, discount := n.discount, final := n.final, total := charged, status := PaidPendingApproval,
              version := o.version + 1)
    ensures LeftBehind(w, v, i, v.orders[i], [Event(message, OrderCreated, i, PaidPendingApproval, charged)],
      Begun(ToPay, i, Some(w.orders[i].user), Committed(Pay(claim, charged))))
  {
    var c, o, caller := |w.calls|, w.orders[i], Some(w.orders[i].user);
    var managed := Prepare(o, claim);
    charged := PayableAmount(managed);
    var done := managed.(status := PaidPendingApproval, total := charged);
    var waiting, read := Begun(ToPay, i, caller, Waiting), Begun(ToPay, i, caller, Working(o, o, None, None, false));
    var claimed := Begun(ToPay, i, caller, Working(o, managed, Some(claim), None, false));
    var paid := Begun(ToPay, i, caller, Working(o, done, Some(claim), Some(charged), false));
    ReadRowAlone(w, ToPay, i, caller);
    ClaimAlone(w, i, claim);
    ChargeAlone(w, i, o, claim, charged, managed);
    CommitAlone(w, paid, Pay(claim, charged), message);
    PaymentIsAsAnswered(o, claim, charged);
    v := CommittedTo(w, paid, Pay(claim, charged), message, done.(version := o.version + 1));
    Route5(w, StartChange(ToPay, i, caller), With(w, waiting), ReadRow(c), With(w, read), ClaimCoupon(c, Some(claim)),
      With(w, claimed), MoveMoney(c, true), With(w, paid), Commit(c, message, true), v);
    ws := [w, With(w, waiting), With(w, read), With(w, claimed), With(w, paid), v];
  }

  lemma ReleaseAlone(w: World, intent: Intent, i: nat, caller: Option<int>, o: Order, managed: Order, moved: Option<int>)
    requires intent == ToCancel || (intent == ToReject && moved.Some?)
    requires o.product in w.products
    ensures var call := Begun(intent, i, caller, Working(o, managed, None, moved, false));
      Goes(With(w, call), Release(|w.calls|, Done),
        With(Restored(w, o.product, o.quantity), Begun(intent, i, caller, Working(o, managed, None, moved, true))))
  {
    var call := Begun(intent, i, caller, Working(o, managed, None, moved, false));
    var v := Restored(w, o.product, o.quantity);
    LastCallChanges(v, call, Begun(intent, i, caller, Working(o, managed, None, moved, true)));
    assert Restock(With(w, call), o.product, Stock(w, o.product) + o.quantity) == With(v, call);
  }

  /** A cancel: the order is CANCELLED and otherwise as it was, its quantity is back on the shelf, and the
      event says so. */
  lemma CancelAlone(w: World, i: nat, message: string) returns (ws: seq<World>, v: World)
    requires i < |w.orders| && w.orders[i].status in {PendingApproval, PaidPendingApproval, Paying}
    requires w.orders[i].product in w.products && FreshMessage(w.outbox, message)
    ensures var c := |w.calls|;
      Route(ws, [StartChange(ToCancel, i, Some(w.orders[i].user)), ReadRow(c), Release(c, Done), Commit(c, message, true)])
    ensures ws[0] == w && ws[4] == v
    ensures var o := w.orders[i];
      && v.products == w.products[o.product := Product(w.products[o.product].stock + o.quantity, w.products[o.product].onSale)]
      && LeftBehind(w, v, i, o.(status := Cancelled, version := o.version + 1),
           [Event(message, OrderCancelled, i, Cancelled, o.total)], Begun(ToCancel, i, Some(o.user), Committed(Cancel)))
  {
    var c, o, caller := |w.calls|, w.orders[i], Some(w.orders[i].user);
    var managed, u := o.(status := Cancelled), Restored(w, o.product, o.quantity);
    var waiting := Begun(ToCancel, i, caller, Waiting);
    var read := Begun(ToCancel, i, caller, Working(o, managed, None, None, false));
    var released := Begun(ToCancel, i, caller, Working(o, managed, None, None, true));
    ReadRowAlone(w, ToCancel, i, caller);
    ReleaseAlone(w, ToCancel, i, caller, o, managed, None);
    CommitAlone(u, released, Cancel, message);
    v := CommittedTo(u, released, Cancel, message, managed.(version := o.version + 1));
    CommitLeaves(w, u, released, Cancel, message, managed.(version := o.version + 1));
    Route4(w, StartChange(ToCancel, i, caller), With(w, waiting), ReadRow(c), With(w, read), Release(c, Done), With(u, released),
      Commit(c, message, true), v);
    ws := [w, With(w, waiting), With(w, read), With(u, released), v];
  }

  /** An approval: SHIPPING from now on, to be delivered on the next workday. */
  lemma ApproveAlone(w: World, i: nat, now: int, due: int, message: string) returns (ws: seq<World>, v: World)
    requires i < |w.orders| && w.orders[i].status in {PendingApproval, PaidPendingApproval}
    requires Calendar.IsNextWorkday(now, due) && FreshMessage(w.outbox, message)
    ensures Route(ws, [StartChange(ToApprove(now), i, None), ReadRow(|w.calls|), Commit(|w.calls|, message, true)])
    ensures ws[0] == w && ws[3] == v && v.products == w.products
    ensures var o := w.orders[i];
      LeftBehind(w, v, i,
        o.(status := Shipping, shipTime := Some(now), expectedDelivery := Some(due), version := o.version + 1),
        [Event(message, OrderApproved, i, Shipping, o.total)], Begun(ToApprove(now), i, None, Committed(Approve(now))))
  {
    var c, o := |w.calls|, w.orders[i];
    Calendar.NextWorkdayIsFirst(now, due);
    var managed := o.(status := Shipping, shipTime := Some(now), expectedDelivery := Some(due));
    var waiting := Begun(ToApprove(now), i, None, Waiting);
    var read := Begun(ToApprove(now), i, None, Working(o, managed, None, None, false));
    ReadRowAlone(w, ToApprove(now), i, None);
    CommitAlone(w, read, Approve(now), message);
    v := CommittedTo(w, read, Approve(now), message, managed.(version := o.version + 1));
    Route3(w, StartChange(ToApprove(now), i, None), With(w, waiting), ReadRow(c), With(w, read), Commit(c, message, true), v);
    ws := [w, With(w, waiting), With(w, read), v];
  }

  lemma RefundAlone(w: World, i: nat, o: Order, amount: int)
    requires amount == if o.final.Some? then o.final.value else o.total
    ensures var call := Begun(ToReject, i, None, Working(o, o.(status := Refunding), None, None, false));
      Goes(With(w, call), MoveMoney(|w.calls|, true),
        With(w, Begun(ToReject, i, None, Working(o, o.(status := Rejected), None, Some(amount), false))))
  {
    LastCallChanges(w, Begun(ToReject, i, None, Working(o, o.(status := Refunding), None, None, false)),
      Begun(ToReject, i, None, Working(o, o.(status := Rejected), None, Some(amount), false)));
  }

  lemma RejectRoute(w: World, i: nat, o: Order, managed: Order, amount: int, message: string) returns (ws: seq<World>, v: World)
    requires i < |w.orders| && w.orders[i] == o && Accepts(ToReject, o) && o.product in w.products
    requires amount == (if o.final.Some? then o.final.value else o.total) && managed == o.(status := Rejected)
    requires FreshMessage(w.outbox, message)
    ensures var c := |w.calls|;
      Route(ws, [StartChange(ToReject, i, None), ReadRow(c), MoveMoney(c, true), Release(c, Done), Commit(c, message, true)])
    ensures ws[0] == w && ws[5] == v
    ensures v == CommittedTo(Restored(w, o.product, o.quantity),
      Begun(ToReject, i, None, Working(o, managed, None, Some(amount), true)), Reject(amount), message,
      managed.(version := o.version + 1))
  {
    var c, u := |w.calls|, Restored(w, o.product, o.quantity);
    var waiting := Begun(ToReject, i, None, Waiting);
    var read := Begun(ToReject, i, None, Working(o, o.(status := Refunding), None, None, false));
    var refunded := Begun(ToReject, i, None, Working(o, managed, None, Some(amount), false));
    var released := Begun(ToReject, i, None, Working(o, managed, None, Some(amount), true));
    ReadRowAlone(w, ToReject, i, None);
    RefundAlone(w, i, o, amount);
    ReleaseAlone(w, ToReject, i, None, o, managed, Some(amount));
    CommitAlone(u, released, Reject(amount), message);
    v := CommittedTo(u, released, Reject(amount), message, managed.(version := o.version + 1));
    Route5(w, StartChange(ToReject, i, None), With(w, waiting), ReadRow(c), With(w, read), MoveMoney(c, true), With(w, refunded),
      Release(c, Done), With(u, released), Commit(c, message, true), v);
    ws := [w, With(w, waiting), With(w, read), With(w, refunded), With(u, released), v];
  }

  /** A rejection: the final amount (or the total, where there is none) is refunded, the order is REJECTED
      and otherwise as it was, and its quantity is back on the shelf. */
  lemma RejectAlone(w: World, i: nat, message: string) returns (ws: seq<World>, v: World)
    requires i < |w.orders| && w.orders[i].status in {PendingApproval, PaidPendingApproval}
    requires w.orders[i].product in w.products && FreshMessage(w.outbox, message)
    ensures var c := |w.calls|;
      Route(ws, [StartChange(ToReject, i, None), ReadRow(c), MoveMoney(c, true), Release(c, Done), Commit(c, message, true)])
    ensures ws[0] == w && ws[5] == v
    ensures var o := w.orders[i]; var amount := if o.final.Some? then o.final.value else o.total;
      && v.products == w.products[o.product := Product(w.products[o.product].stock + o.quantity, w.products[o.product].onSale)]
      && LeftBehind(w, v, i, o.(status := Rejected, version := o.version + 1),
           [Event(message, OrderRejected, i, Rejected, o.total)], Begun(ToReject, i, None, Committed(Reject(amount))))
  {
    var o := w.orders[i];
    var amount := if o.final.Some? then o.final.value else o.total;
    var managed, u := o.(status := Rejected), Restored(w, o.product, o.quantity);
    ws, v := RejectRoute(w, i, o, managed, amount, message);
    CommitLeaves(w, u, Begun(ToReject, i, None, Working(o, managed, None, Some(amount), true)), Reject(amount), message,
      managed.(version := o.version + 1));
  }

  /** A completion: COMPLETED now, without an event. */
  lemma CompleteAlone(w: World, i: nat, now: int, message: string) returns (ws: seq<World>, v: World)
    requires i < |w.orders| && w.orders[i].status == Shipping && w.orders[i].completeTime.None?
    requires w.orders[i].expectedDelivery.Some? && w.orders[i].expectedDelivery.value <= now && FreshMessage(w.outbox, message)
    ensures Route(ws, [StartChange(ToComplete(now), i, None), ReadRow(|w.calls|), Commit(|w.calls|, message, true)])
    ensures ws[0] == w && ws[3] == v && v.products == w.products
    ensures var o := w.orders[i];
      LeftBehind(w, v, i, o.(status := Completed, completeTime := Some(now), version := o.version + 1), [],
        Begun(ToComplete(now), i, None, Committed(Complete(now))))
  {
    var c, o := |w.calls|, w.orders[i];
    var managed := o.(status := Completed, completeTime := Some(now));
    var waiting := Begun(ToComplete(now), i, None, Waiting);
    var read := Begun(ToComplete(now), i, None, Working(o, managed, None, None, false));
    ReadRowAlone(w, ToComplete(now), i, None);
    CommitAlone(w, read, Complete(now), message);
    v := CommittedTo(w, read, Complete(now), message, managed.(version := o.version + 1));
    Route3(w, StartChange(ToComplete(now), i, None), With(w, waiting), ReadRow(c), With(w, read), Commit(c, message, true), v);
    ws := [w, With(w, waiting), With(w, read), v];
  }

  /** A payment or refund that fails, or a coupon platform that does, leaves the tables as they were. */
  lemma FailureChangesNothing(w: World, call: Call, l: Label)
    requires call.Change? && Steps(With(w, call), l)
    requires l == MoveMoney(|w.calls|, false) || l == ClaimCoupon(|w.calls|, None)
    ensures Step(With(w, call), l) == With(w, call.(progress := RolledBack(call.progress.row, call.progress.released)))
  {
    LastCallChanges(w, call, call.(progress := RolledBack(call.progress.row, call.progress.released)));
  }
}
