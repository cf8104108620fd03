/** Order service and stock table as one step machine. A request runs as a sequence of atomic
    steps (one SQL statement, one HTTP call, one commit each) and the steps of any number of
    requests interleave freely. Remote calls may fail, or take effect and lose the reply. */
module OrderSaga {
  import opened Options
  import opened Orders
  import Calendar

  datatype Product = Product(stock: nat, onSale: bool)

  /** A committed row of t_order_outbox. */
  datatype Event = Event(message: string, kind: Kind, order: nat, status: Status, total: int)

  /** The history of commits, newest last. */
  datatype Entry = Inserted(row: Order) | Changed(id: nat, op: Op, message: string)

  // ---- requests -------------------------------------------------------------------------------

  datatype CreateStep =
    | Starting                       // nothing done yet
    | Looked                         // no order with this request number was found
    | Admitted                       // the product snapshot allowed the order
    | Holding(price: nat)            // stock reserved, order not inserted
    | Undoing(duplicate: bool)       // insert failed, reservation to be released
    | Rechecking                     // duplicate: look for the order that won
    | Returned(id: nat)              // answered with an existing order
    | Created(id: nat, unit: nat)    // inserted this order at this unit price
    | CreateFailed                   // answered with an error

  datatype Intent = ToPay | ToCancel | ToApprove(now: int) | ToReject | ToComplete(now: int)

  /** A transaction on an order: the row it read, the managed entity as its setters have left it, the
      remote calls it has made, how it ended. */
  datatype ChangeStep =
    | Waiting
    | Working(row: Order, managed: Order, claim: Option<Claim>, moved: Option<int>, released: bool)
    | Committed(op: Op)
    | RolledBack(was: Order, freed: bool)   // freed: stock was given back all the same
    | Refused

  datatype Call =
    | Create(user: int, requestNo: string, product: int, quantity: nat, step: CreateStep, leaked: bool)
    | Change(intent: Intent, order: nat, caller: Option<int>, progress: ChangeStep)

  datatype World = World(
    products: map<int, Product>,
    orders: seq<Order>,
    outbox: seq<Event>,
    calls: seq<Call>,
    log: seq<Entry>,
    adjusted: map<int, int>)   // stock added by admin edits, per product

  datatype Outcome = Done | Failed | LostReply

  datatype InsertFault = NoFault | IntegrityFault | OtherFault

  datatype Label =
    | StartCreate(user: int, requestNo: string, product: int, quantity: nat)
    | StartChange(intent: Intent, order: nat, caller: Option<int>)
    | Lookup(c: nat)
    | Check(c: nat, onSale: bool, stock: int, reached: bool)
    | Reserve(c: nat, outcome: Outcome, price: nat)
    | Insert(c: nat, fault: InsertFault)
    | Undo(c: nat, outcome: Outcome)
    | Recheck(c: nat)
    | ReadRow(c: nat)
    | ClaimCoupon(c: nat, claim: Option<Claim>)
    | MoveMoney(c: nat, ok: bool)
    | Release(c: nat, outcome: Outcome)
    | Commit(c: nat, message: string, dbOk: bool)
    | Admin(product: int, row: Product)

  // ---- state access ---------------------------------------------------------------------------

  function Stock(w: World, p: int): nat { if p in w.products then w.products[p].stock else 0 }

  function Adjusted(w: World, p: int): int { if p in w.adjusted then w.adjusted[p] else 0 }

  predicate HasKey(o: Order, user: int, requestNo: string) {
    o.user == user && o.requestNo == Some(requestNo)
  }

  /** findByUserIdAndRequestNo, over a table where the key is unique. */
  function Find(orders: seq<Order>, user: int, requestNo: string): (r: Option<nat>)
    ensures r.Some? ==> r.value < |orders| && HasKey(orders[r.value], user, requestNo)
    ensures r.None? ==> forall i :: 0 <= i < |orders| ==> !HasKey(orders[i], user, requestNo)
  {
    if orders == [] then None
    else if HasKey(orders[|orders| - 1], user, requestNo) then Some(|orders| - 1)
    else Find(orders[..|orders| - 1], user, requestNo)
  }

  predicate FreshMessage(outbox: seq<Event>, message: string) {
    forall i :: 0 <= i < |outbox| ==> outbox[i].message != message
  }

  function SetCall(w: World, c: nat, call: Call): World
    requires c < |w.calls|
  {
    w.(calls := w.calls[c := call])
  }

  function Restock(w: World, p: int, stock: nat): World
    requires p in w.products
  {
    w.(products := w.products[p := w.products[p].(stock := stock)])
  }

  // ---- steps ----------------------------------------------------------------------------------

  function NewOrder(call: Call, price: nat): Order
    requires call.Create?
  {
    var amount := price * call.quantity;
    Order(call.user, Some(call.requestNo), call.product, call.quantity,
          amount, Some(amount), None, None, Paying, None, None, None, 0)
  }

  /** The guards that a transaction evaluates on the row it has just read. */
  predicate Admissible(intent: Intent, o: Order) {
    match intent
    case ToPay => o.status == Paying
    case ToCancel => IsPending(o.status) || o.status == Paying
    case ToApprove(_) => IsPending(o.status)
    case ToReject => IsPending(o.status)
    case ToComplete(now) => Enabled(o, Complete(now))
  }

  /** The entity after the setters that run at once: cancel, approve and complete are done with them,
      reject saves REFUNDING before it asks for the refund. */
  function Opened(intent: Intent, o: Order): Order {
    match intent
    case ToPay => o
    case ToCancel => o.(status := Cancelled)
    case ToApprove(now) =>
      o.(status := Shipping, shipTime := Some(now), expectedDelivery := Some(Calendar.NextWorkday(now)))
    case ToReject => o.(status := Refunding)
    case ToComplete(now) => o.(status := Completed, completeTime := Some(now))
  }

  /** The entity after the setters that follow the payment or the refund. */
  function Settled(intent: Intent, o: Order, amount: int): Order {
    match intent
    case ToPay => o.(status := PaidPendingApproval, total := amount)
    case ToReject => o.(status := Rejected)
    case _ => o
  }

  /** The operation that a transaction is ready to commit, once its remote calls are made. */
  function ReadyOp(call: Call): Option<Op> {
    if !call.Change? || !call.progress.Working? then None
    else
      var p := call.progress;
      match call.intent
      case ToPay => if p.claim.Some? && p.moved.Some? then Some(Pay(p.claim.value, p.moved.value)) else None
      case ToCancel => if p.released then Some(Cancel) else None
      case ToApprove(now) => Some(Approve(now))
      case ToReject => if p.moved.Some? && p.released then Some(Reject(p.moved.value)) else None
      case ToComplete(now) => Some(Complete(now))
  }

  /** Where release_stock is called: cancel at once, reject after the refund. */
  predicate MayRelease(call: Call) {
    && call.Change? && call.progress.Working? && !call.progress.released
    && (call.intent.ToCancel? || (call.intent.ToReject? && call.progress.moved.Some?))
  }

  predicate CreateAt(w: World, c: nat, step: CreateStep) {
    c < |w.calls| && w.calls[c].Create? && w.calls[c].step == step
  }

  predicate Steps(w: World, l: Label) {
    match l
    case StartCreate(_, _, _, q) => q > 0
    case StartChange(_, _, _) => true
    case Admin(_, _) => true
    case Lookup(c) => CreateAt(w, c, Starting)
    case Check(c, _, _, _) => CreateAt(w, c, Looked)
    case Reserve(c, _, _) => CreateAt(w, c, Admitted)
    case Insert(c, _) => c < |w.calls| && w.calls[c].Create? && w.calls[c].step.Holding?
    case Undo(c, _) => c < |w.calls| && w.calls[c].Create? && w.calls[c].step.Undoing?
    case Recheck(c) => CreateAt(w, c, Rechecking)
    case ReadRow(c) => c < |w.calls| && w.calls[c].Change? && w.calls[c].progress.Waiting?
    case ClaimCoupon(c, claim) =>
      && c < |w.calls| && w.calls[c].Change? && w.calls[c].intent.ToPay?
      && w.calls[c].progress.Working? && w.calls[c].progress.claim.None?
      && (claim.Some? ==> ClaimFits(w.calls[c].progress.row, claim.value))
    case MoveMoney(c, _) =>
      && c < |w.calls| && w.calls[c].Change? && w.calls[c].progress.Working? && w.calls[c].progress.moved.None?
      && (w.calls[c].intent.ToReject? || (w.calls[c].intent.ToPay? && w.calls[c].progress.claim.Some?))
    case Release(c, _) => c < |w.calls| && MayRelease(w.calls[c])
    case Commit(c, _, _) => c < |w.calls| && ReadyOp(w.calls[c]).Some?
  }

  function CreateAfter(call: Call, step: CreateStep): Call
    requires call.Create?
  {
    call.(step := step)
  }

  function DoReserve(w: World, c: nat, outcome: Outcome, price: nat): World
    requires CreateAt(w, c, Admitted)
  {
    var call := w.calls[c];
    var p, q := call.product, call.quantity;
    if outcome == Failed || p !in w.products || !w.products[p].onSale || Stock(w, p) < q then
      SetCall(w, c, call.(step := CreateFailed))
    else if outcome == Done then
      SetCall(Restock(w, p, Stock(w, p) - q), c, call.(step := Holding(price)))
    else
      SetCall(Restock(w, p, Stock(w, p) - q), c, call.(step := CreateFailed, leaked := true))
  }

  function DoInsert(w: World, c: nat, fault: InsertFault): World
    requires c < |w.calls| && w.calls[c].Create? && w.calls[c].step.Holding?
  {
    var call := w.calls[c];
    if Find(w.orders, call.user, call.requestNo).Some? || fault == IntegrityFault then
      SetCall(w, c, call.(step := Undoing(true)))
    else if fault == OtherFault then
      SetCall(w, c, call.(step := Undoing(false)))
    else
      var row := NewOrder(call, call.step.price);
      SetCall(w, c, call.(step := Created(|w.orders|, call.step.price))).(orders := w.orders + [row], log := w.log + [Inserted(row)])
  }

  /** tryReleaseProduct swallows every failure; only the stock knows whether it worked. */
  function DoUndo(w: World, c: nat, outcome: Outcome): World
    requires c < |w.calls| && w.calls[c].Create? && w.calls[c].step.Undoing?
  {
    var call := w.calls[c];
    var next := if call.step.duplicate then Rechecking else CreateFailed;
    if outcome == Failed || call.product !in w.products then
      SetCall(w, c, call.(step := next, leaked := true))
    else
      SetCall(Restock(w, call.product, Stock(w, call.product) + call.quantity), c, call.(step := next))
  }

  function DoReadRow(w: World, c: nat): World
    requires c < |w.calls| && w.calls[c].Change?
  {
    var call := w.calls[c];
    var i := call.order;
    if i < |w.orders| && (call.caller.Some? ==> w.orders[i].user == call.caller.value)
       && Admissible(call.intent, w.orders[i])
    then SetCall(w, c, call.(progress := Working(w.orders[i], Opened(call.intent, w.orders[i]), None, None, false)))
    else SetCall(w, c, call.(progress := Refused))
  }

  function DoRelease(w: World, c: nat, outcome: Outcome): World
    requires c < |w.calls| && MayRelease(w.calls[c])
  {
    var call := w.calls[c];
    var row := call.progress.row;
    if outcome == Failed || row.product !in w.products then
      SetCall(w, c, call.(progress := RolledBack(row, false)))
    else if outcome == Done then
      SetCall(Restock(w, row.product, Stock(w, row.product) + row.quantity), c, call.(progress := call.progress.(released := true)))
    else
      SetCall(Restock(w, row.product, Stock(w, row.product) + row.quantity), c, call.(progress := RolledBack(row, true)))
  }

  function EventsFor(op: Op, i: nat, row: Order, message: string): seq<Event> {
    var k := EventKind(op);
    if k.Some? then [Event(message, k.value, i, row.status, row.total)] else []
  }

  /** The commit succeeds when the database does, nobody has raised the version since the read,
      and the outbox insert meets no equal message id. */
  predicate CommitSucceeds(w: World, c: nat, message: string, dbOk: bool)
    requires c < |w.calls| && ReadyOp(w.calls[c]).Some?
  {
    var call := w.calls[c];
    && dbOk && call.order < |w.orders|
    && w.orders[call.order].version == call.progress.row.version
    && (EventKind(ReadyOp(call).value).Some? ==> FreshMessage(w.outbox, message))
  }

  /** The flush writes the managed entity, whole, with the version raised. */
  function Flushed(managed: Order): Order { managed.(version := managed.version + 1) }

  function DoCommit(w: World, c: nat, message: string, dbOk: bool): World
    requires c < |w.calls| && ReadyOp(w.calls[c]).Some?
  {
    var call := w.calls[c];
    var op := ReadyOp(call).value;
    if CommitSucceeds(w, c, message, dbOk) then
      var row := Flushed(call.progress.managed);
      SetCall(w, c, call.(progress := Committed(op))).(
        orders := w.orders[call.order := row],
        outbox := w.outbox + EventsFor(op, call.order, row, message),
        log := w.log + [Changed(call.order, op, message)])
    else
      SetCall(w, c, call.(progress := RolledBack(call.progress.row, call.progress.released)))
  }

  function Step(w: World, l: Label): World
    requires Steps(w, l)
  {
    match l
    case StartCreate(user, requestNo, product, quantity) =>
      w.(calls := w.calls + [Create(user, requestNo, product, quantity, Starting, false)])
    case StartChange(intent, order, caller) => w.(calls := w.calls + [Change(intent, order, caller, Waiting)])
    case Lookup(c) =>
      var found := Find(w.orders, w.calls[c].user, w.calls[c].requestNo);
      SetCall(w, c, CreateAfter(w.calls[c], if found.Some? then Returned(found.value) else Looked))
    case Check(c, onSale, stock, reached) =>
      var ok := reached && onSale && stock >= w.calls[c].quantity;
      SetCall(w, c, CreateAfter(w.calls[c], if ok then Admitted else CreateFailed))
    case Reserve(c, outcome, price) => DoReserve(w, c, outcome, price)
    case Insert(c, fault) => DoInsert(w, c, fault)
    case Undo(c, outcome) => DoUndo(w, c, outcome)
    case Recheck(c) =>
      var found := Find(w.orders, w.calls[c].user, w.calls[c].requestNo);
      SetCall(w, c, CreateAfter(w.calls[c], if found.Some? then Returned(found.value) else CreateFailed))
    case ReadRow(c) => DoReadRow(w, c)
    case ClaimCoupon(c, claim) =>
      var call := w.calls[c];
      SetCall(w, c, call.(progress :=
        if claim.Some? then call.progress.(claim := claim, managed := Prepare(call.progress.managed, claim.value))
        else RolledBack(call.progress.row, call.progress.released)))
    case MoveMoney(c, ok) =>
      var call := w.calls[c];
      var managed := call.progress.managed;
      var amount := if call.intent.ToReject? then RefundAmount(managed) else PayableAmount(managed);
      SetCall(w, c, call.(progress :=
        if ok then call.progress.(moved := Some(amount), managed := Settled(call.intent, managed, amount))
        else RolledBack(call.progress.row, call.progress.released)))
    case Release(c, outcome) => DoRelease(w, c, outcome)
    case Commit(c, message, dbOk) => DoCommit(w, c, message, dbOk)
    case Admin(p, row) =>
      w.(products := w.products[p := row], adjusted := w.adjusted[p := Adjusted(w, p) + row.stock - Stock(w, p)])
  }

  // ---- who is touched by a step -----------------------------------------------------------------

  predicate OnCreate(l: Label) { l.Lookup? || l.Check? || l.Reserve? || l.Insert? || l.Undo? || l.Recheck? }

  predicate OnChange(l: Label) { l.ReadRow? || l.ClaimCoupon? || l.MoveMoney? || l.Release? || l.Commit? }

  lemma CreateStepTouches(w: World, l: Label)
    requires Steps(w, l) && OnCreate(l)
    ensures l.c < |w.calls| && w.calls[l.c].Create? && Step(w, l).calls == w.calls[l.c := Step(w, l).calls[l.c]]
    ensures var was, now := w.calls[l.c], Step(w, l).calls[l.c];
      now.Create? && now == was.(step := now.step, leaked := now.leaked)
  {
  }

  lemma ChangeStepTouches(w: World, l: Label)
    requires Steps(w, l) && OnChange(l)
    ensures l.c < |w.calls| && w.calls[l.c].Change? && Step(w, l).calls == w.calls[l.c := Step(w, l).calls[l.c]]
    ensures var was, now := w.calls[l.c], Step(w, l).calls[l.c];
      now.Change? && now == was.(progress := now.progress)
  {
  }

  lemma OrdersChangeOnlyByCommits(w: World, l: Label)
    requires Steps(w, l) && !l.Insert? && !l.Commit?
    ensures Step(w, l).orders == w.orders
  {
  }

  // ---- runs -----------------------------------------------------------------------------------

  predicate UniqueKeys(orders: seq<Order>) {
    forall i, j :: 0 <= i < j < |orders| && orders[i].requestNo.Some? ==>
      !(orders[i].user == orders[j].user && orders[i].requestNo == orders[j].requestNo)
  }

  /** Nothing in flight; the table may hold rows from before, with unique request numbers and,
      as the first theorem keeps true, none caught in the middle of a refund. */
  predicate Initial(w: World) {
    && w.calls == [] && w.log == [] && w.adjusted == map[] && w.outbox == []
    && UniqueKeys(w.orders)
    && forall i :: 0 <= i < |w.orders| ==> w.orders[i].status != Refunding
  }

  function Exec(w: World, ls: seq<Label>): Option<World> {
    if ls == [] then Some(w)
    else
      match Exec(w, ls[..|ls| - 1])
      case Some(v) => if Steps(v, ls[|ls| - 1]) then Some(Step(v, ls[|ls| - 1])) else None
      case None => None
  }
}
