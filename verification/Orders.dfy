/** One order row, the changes that may be committed to it, and everything that follows for a
    single order from the guards alone. */
module Orders {
  import opened Options
  import Calendar
  import Coupons

  datatype Status =
    | PendingApproval | Approved | Rejected | Cancelled
    | Paying | PaidPendingApproval | Shipping | Completed | Refunding

  /** A row of t_order; money in cents, times in seconds. */
  datatype Order = Order(
    user: int,
    requestNo: Option<string>,
    product: int,
    quantity: nat,
    total: int,
    origin: Option<int>,
    discount: Option<int>,
    final: Option<int>,
    status: Status,
    shipTime: Option<int>,
    expectedDelivery: Option<int>,
    completeTime: Option<int>,
    version: nat)

  predicate IsPending(s: Status) { s == PendingApproval || s == PaidPendingApproval }

  predicate IsFinal(s: Status) { s == Cancelled || s == Rejected || s == Completed }

  predicate IsLive(s: Status) { s != Cancelled && s != Rejected }

  /** What the pay step learned about the amount: amounts already on the row, coupon platform
      switched off, or the platform's reply. */
  datatype Claim = Kept | Disabled | Granted(reply: Coupons.Reply)

  function ResolveOrigin(o: Order): int {
    if o.origin.Some? then o.origin.value else o.total
  }

  function RefundAmount(o: Order): int {
    if o.final.Some? then o.final.value else o.total
  }

  function PayableAmount(o: Order): int {
    if o.final.Some? then o.final.value else ResolveOrigin(o)
  }

  predicate IsPrepared(o: Order) { o.final.Some? && o.discount.Some? && o.origin.Some? }

  function Prepare(o: Order, claim: Claim): Order {
    var origin := ResolveOrigin(o);
    match claim
    case Kept => o
    case Disabled => o.(origin := Some(origin), discount := Some(0), final := Some(origin), total := origin)
    case Granted(reply) =>
      o.(origin := Some(origin), discount := Some(reply.discount), final := Some(reply.final), total := reply.final)
  }

  /** A claim that the coupon engine can answer for this row: it promises what any of its answers does. */
  predicate ClaimFits(o: Order, claim: Claim) {
    && (claim.Kept? <==> IsPrepared(o))
    && (claim.Granted? ==> Coupons.Answers(ResolveOrigin(o), 1, claim.reply))
  }

  // ---- committed changes ------------------------------------------------------------------

  datatype Op =
    | Pay(claim: Claim, charged: int)
    | Cancel
    | Approve(now: int)
    | Reject(refunded: int)
    | Complete(now: int)

  /** The guard each operation evaluates on the row it works on. */
  predicate Enabled(o: Order, op: Op) {
    match op
    case Pay(claim, charged) =>
      o.status == Paying && ClaimFits(o, claim) && charged == PayableAmount(Prepare(o, claim))
    case Cancel => IsPending(o.status) || o.status == Paying
    case Approve(_) => IsPending(o.status)
    case Reject(refunded) => IsPending(o.status) && refunded == RefundAmount(o)
    case Complete(now) =>
      && o.status == Shipping && o.completeTime.None?
      && o.expectedDelivery.Some? && o.expectedDelivery.value <= now
  }

  /** The row an operation writes back; JPA raises the version by one. */
  function Apply(o: Order, op: Op): Order {
    var o := o.(version := o.version + 1);
    match op
    case Pay(claim, charged) => Prepare(o, claim).(status := PaidPendingApproval, total := charged)
    case Cancel => o.(status := Cancelled)
    case Approve(now) =>
      o.(status := Shipping, shipTime := Some(now), expectedDelivery := Some(Calendar.NextWorkday(now)))
    case Reject(_) => o.(status := Rejected)
    case Complete(now) => o.(status := Completed, completeTime := Some(now))
  }

  function ApplyAll(o: Order, ops: seq<Op>): Order {
    if ops == [] then o else Apply(ApplyAll(o, ops[..|ops| - 1]), ops[|ops| - 1])
  }

  /** Every operation of the list found its guard true on the row left by the ones before. */
  predicate Chain(o: Order, ops: seq<Op>) {
    ops != [] ==> Chain(o, ops[..|ops| - 1]) && Enabled(ApplyAll(o, ops[..|ops| - 1]), ops[|ops| - 1])
  }

  lemma ChainExtends(o: Order, ops: seq<Op>, op: Op)
    requires Chain(o, ops) && Enabled(ApplyAll(o, ops), op)
    ensures Chain(o, ops + [op]) && ApplyAll(o, ops + [op]) == Apply(ApplyAll(o, ops), op)
  {
    assert (ops + [op])[..|ops|] == ops;
  }

  // ---- the life of an order created by this service ----------------------------------------

  predicate IsFresh(o: Order) {
    && o.status == Paying && o.version == 0 && o.quantity > 0
    && o.origin == Some(o.total) && o.discount.None? && o.final.None?
    && o.shipTime.None? && o.expectedDelivery.None? && o.completeTime.None?
  }

  /** How many more changes a row can still see. */
  function Rank(s: Status): nat {
    match s
    case Paying => 3
    case PaidPendingApproval => 2
    case PendingApproval => 2
    case Shipping => 1
    case _ => 0
  }

  /** The money columns before payment (and after an unpaid cancel), and from payment on. */
  predicate Unpaid(o: Order) { o.discount.None? && o.final.None? && o.origin == Some(o.total) }

  /** The amount of the payment and the money columns it leaves, told from the coupon platform's answer
      and the amounts on the row before. */
  predicate PaidAs(before: Order, after: Order, claim: Claim, charged: int) {
    && after.total == charged && after.final == Some(charged)
    && match claim
       case Granted(reply) =>
         && charged == reply.final && after.discount == Some(reply.discount)
         && after.origin == Some(if before.origin.Some? then before.origin.value else before.total)
       case Disabled =>
         && charged == (if before.origin.Some? then before.origin.value else before.total)
         && after.discount == Some(0) && after.origin == Some(charged)
       case Kept => before.final == Some(charged) && after.discount == before.discount && after.origin == before.origin
  }

  lemma PaymentIsAsAnswered(o: Order, claim: Claim, charged: int)
    requires Enabled(o, Pay(claim, charged))
    ensures PaidAs(o, Apply(o, Pay(claim, charged)), claim, charged)
    ensures claim.Kept? <==> o.final.Some? && o.discount.Some? && o.origin.Some?
  {
  }

  /** From payment on: what was charged and taken off is what the platform answered, nothing when it is
      switched off; together they are the price; and a discount leaves enough for a new coupon. */
  predicate PaidUp(o: Order, op: Op)
    requires op.Pay?
  {
    && o.origin.Some? && o.discount.Some? && o.final == Some(op.charged) && o.total == op.charged
    && o.origin.value == op.charged + o.discount.value
    && (o.discount.value != 0 ==> 0 < o.discount.value < o.origin.value && Coupons.IssueType(op.charged).Some?)
    && match op.claim
       case Granted(reply) => op.charged == reply.final && o.discount.value == reply.discount
       case Disabled => op.charged == o.origin.value && o.discount.value == 0
       case Kept => false
  }

  predicate Delivered(o: Order) {
    && o.shipTime.Some? && o.expectedDelivery.Some? && o.completeTime.Some?
    && Calendar.IsNextWorkday(o.shipTime.value, o.expectedDelivery.value)
    && o.shipTime.value < o.expectedDelivery.value <= o.completeTime.value
  }

  /** Which operations a status stands for, without their data. */
  predicate Shape(s: Status, ops: seq<Op>) {
    match s
    case Paying => ops == []
    case PaidPendingApproval => |ops| == 1 && ops[0].Pay?
    case Cancelled => (|ops| == 1 && ops[0].Cancel?) || (|ops| == 2 && ops[0].Pay? && ops[1].Cancel?)
    case Shipping => |ops| == 2 && ops[0].Pay? && ops[1].Approve?
    case Rejected => |ops| == 2 && ops[0].Pay? && ops[1].Reject?
    case Completed => |ops| == 3 && ops[0].Pay? && ops[1].Approve? && ops[2].Complete?
    case _ => false
  }

  predicate Shipped(o: Order, now: int) {
    o.shipTime == Some(now) && o.expectedDelivery.Some? && Calendar.IsNextWorkday(now, o.expectedDelivery.value)
  }

  /** The whole story of a row that started fresh: its status says exactly which operations were
      committed, in which order, with which money and times. */
  predicate Story(o: Order, ops: seq<Op>) {
    && Shape(o.status, ops)
    && o.version == |ops|
    && |ops| + Rank(o.status) <= 3
    && (o.completeTime.Some? <==> o.status == Completed)
    && (if |ops| > 0 && ops[0].Pay? then PaidUp(o, ops[0]) else Unpaid(o))
    && (o.status == Rejected ==> ops[1].refunded == ops[0].charged)
    && (if o.status == Shipping || o.status == Completed then Shipped(o, ops[1].now)
        else o.shipTime.None? && o.expectedDelivery.None?)
    && (o.status == Completed ==> Delivered(o) && o.completeTime == Some(ops[2].now))
  }

  lemma StoryGoesOn(o: Order, ops: seq<Op>, op: Op)
    requires Story(o, ops) && Enabled(o, op)
    ensures Story(Apply(o, op), ops + [op])
  {
    if op.Pay? && op.claim.Granted? {
      Coupons.AnswersForCents(o.origin.value, op.claim.reply);
    } else if op.Approve? {
      Calendar.NextWorkdayIsFirst(op.now, 0);
    } else if op.Complete? {
      Calendar.NextWorkdayIsFirst(o.shipTime.value, o.expectedDelivery.value);
    }
  }

  lemma {:induction false} FreshLife(o: Order, ops: seq<Op>)
    requires IsFresh(o) && Chain(o, ops)
    ensures Story(ApplyAll(o, ops), ops)
  {
    if ops != [] {
      var before := ops[..|ops| - 1];
      FreshLife(o, before);
      StoryGoesOn(ApplyAll(o, before), before, ops[|ops| - 1]);
      assert before + [ops[|ops| - 1]] == ops;
    }
  }

  lemma FirstOp(o: Order, op: Op)
    requires Enabled(o, op)
    ensures Chain(o, [op]) && ApplyAll(o, [op]) == Apply(o, op)
  {
    ChainExtends(o, [], op);
    assert [] + [op] == [op];
  }

  lemma SecondOp(o: Order, first: Op, op: Op)
    requires Enabled(o, first) && Enabled(Apply(o, first), op)
    ensures Chain(o, [first, op]) && ApplyAll(o, [first, op]) == Apply(Apply(o, first), op)
  {
    FirstOp(o, first);
    ChainExtends(o, [first], op);
    assert [first] + [op] == [first, op];
  }

  lemma ThirdOp(o: Order, first: Op, second: Op, op: Op)
    requires Enabled(o, first) && Enabled(Apply(o, first), second) && Enabled(Apply(Apply(o, first), second), op)
    ensures Chain(o, [first, second, op])
  {
    SecondOp(o, first, second);
    ChainExtends(o, [first, second], op);
    assert [first, second] + [op] == [first, second, op];
  }

  /** And every such story happens: a fresh order can be cancelled, paid, then cancelled, approved or
      rejected with a refund of what was charged, and completed from its delivery date on. */
  lemma EveryStoryHappens(o: Order, claim: Claim, charged: int, now: int, due: int, later: int)
    requires IsFresh(o) && (claim.Disabled? || (claim.Granted? && Coupons.Answers(o.total, 1, claim.reply)))
    requires charged == if claim.Granted? then claim.reply.final else o.total
    requires Calendar.IsNextWorkday(now, due) && due <= later
    ensures Chain(o, [Cancel]) && Chain(o, [Pay(claim, charged)])
    ensures Chain(o, [Pay(claim, charged), Cancel]) && Chain(o, [Pay(claim, charged), Reject(charged)])
    ensures Chain(o, [Pay(claim, charged), Approve(now), Complete(later)])
  {
    var pay := Pay(claim, charged);
    Calendar.NextWorkdayIsFirst(now, due);
    FirstOp(o, Cancel);
    FirstOp(o, pay);
    SecondOp(o, pay, Cancel);
    SecondOp(o, pay, Reject(charged));
    ThirdOp(o, pay, Approve(now), Complete(later));
  }

  // ---- what the outbox says about an order ---------------------------------------------------

  datatype Kind = OrderCreated | OrderCancelled | OrderApproved | OrderRejected

  function EventKind(op: Op): Option<Kind> {
    match op
    case Pay(_, _) => Some(OrderCreated)
    case Cancel => Some(OrderCancelled)
    case Approve(_) => Some(OrderApproved)
    case Reject(_) => Some(OrderRejected)
    case Complete(_) => None
  }

  function Kinds(ops: seq<Op>): seq<Kind> {
    if ops == [] then []
    else
      var k := EventKind(ops[|ops| - 1]);
      Kinds(ops[..|ops| - 1]) + if k.Some? then [k.value] else []
  }

  /** A reader of the event stream who never sees the table. */
  function Heard(s: Option<Status>, k: Kind): Option<Status> {
    match (s, k)
    case (Some(Paying), OrderCreated) => Some(PaidPendingApproval)
    case (Some(Paying), OrderCancelled) => Some(Cancelled)
    case (Some(PaidPendingApproval), OrderCancelled) => Some(Cancelled)
    case (Some(PaidPendingApproval), OrderApproved) => Some(Shipping)
    case (Some(PaidPendingApproval), OrderRejected) => Some(Rejected)
    case _ => None
  }

  function HeardAll(ks: seq<Kind>): Option<Status> {
    if ks == [] then Some(Paying) else Heard(HeardAll(ks[..|ks| - 1]), ks[|ks| - 1])
  }

  /** Completion is silent, so a listener cannot tell it from shipping. */
  function Audible(s: Status): Status { if s == Completed then Shipping else s }

  const STREAMS: set<seq<Kind>> := {
    [], [OrderCreated], [OrderCancelled], [OrderCreated, OrderCancelled],
    [OrderCreated, OrderApproved], [OrderCreated, OrderRejected]
  }

  /** The six streams are exactly the ones a listener can make sense of. */
  lemma {:induction false} StreamsAreSix(ks: seq<Kind>)
    ensures HeardAll(ks).Some? <==> ks in STREAMS
    ensures |ks| >= 3 ==> HeardAll(ks).None?
    ensures |ks| == 2 && HeardAll(ks).Some? ==> IsFinal(HeardAll(ks).value) || HeardAll(ks).value == Shipping
  {
    if ks != [] {
      var front, k := ks[..|ks| - 1], ks[|ks| - 1];
      assert ks == front + [k];
      StreamsAreSix(front);
      if |ks| == 1 {
        assert ks == [k] && front == [];
      } else if |ks| == 2 {
        assert front == [ks[0]] && ks == [ks[0], k];
        assert HeardAll(front) == Heard(Some(Paying), ks[0]);
      }
    }
  }

  /** What one more committed operation tells a listener. */
  function Told(s: Option<Status>, op: Op): Option<Status> {
    match EventKind(op)
    case None => s
    case Some(k) => Heard(s, k)
  }

  lemma KindsAppend(ops: seq<Op>, op: Op)
    ensures Kinds(ops + [op]) == Kinds(ops) + if EventKind(op).Some? then [EventKind(op).value] else []
  {
    assert (ops + [op])[..|ops|] == ops;
  }

  lemma HeardAppend(ks: seq<Kind>, k: Kind)
    ensures HeardAll(ks + [k]) == Heard(HeardAll(ks), k)
  {
    assert (ks + [k])[..|ks|] == ks;
  }

  lemma ToldAppend(ops: seq<Op>, op: Op)
    ensures HeardAll(Kinds(ops + [op])) == Told(HeardAll(Kinds(ops)), op)
  {
    KindsAppend(ops, op);
    if EventKind(op).Some? {
      HeardAppend(Kinds(ops), EventKind(op).value);
    } else {
      assert Kinds(ops + [op]) == Kinds(ops);
    }
  }

  function ToldAll(ops: seq<Op>): Option<Status> {
    if ops == [] then Some(Paying) else Told(ToldAll(ops[..|ops| - 1]), ops[|ops| - 1])
  }

  lemma {:induction false} ToldIsHeard(ops: seq<Op>)
    ensures HeardAll(Kinds(ops)) == ToldAll(ops)
  {
    if ops != [] {
      var front, op := ops[..|ops| - 1], ops[|ops| - 1];
      ToldIsHeard(front);
      ToldAppend(front, op);
      assert ops == front + [op];
    }
  }

  lemma {:induction false} ShapeIsTold(s: Status, ops: seq<Op>)
    requires Shape(s, ops)
    ensures ToldAll(ops) == Some(Audible(s))
    decreases |ops|
  {
    if ops != [] {
      ShapeIsTold(if |ops| == 1 then Paying else if |ops| == 2 then PaidPendingApproval else Shipping, ops[..|ops| - 1]);
    }
  }

  lemma StoryIsHeard(o: Order, ops: seq<Op>)
    requires Story(o, ops)
    ensures HeardAll(Kinds(ops)) == Some(Audible(o.status)) && Kinds(ops) in STREAMS
  {
    ShapeIsTold(o.status, ops);
    ToldIsHeard(ops);
    StreamsAreSix(Kinds(ops));
  }
}
