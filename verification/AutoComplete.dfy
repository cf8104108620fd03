/** Delivery auto-complete: a guarded pass over a page of due orders, earliest delivery first, and
    how long it takes to work off what is due while the shop goes on. */
module AutoComplete {
  import opened Options
  import opened Paging
  import opened Orders
  import opened OrderEntities
  import Calendar
  import OrderSaga
  import OrderTheorems

  // ---- the page ---------------------------------------------------------------------------------

  /** What the finder asks for; it does not look at completeTime. */
  predicate IsDue(now: int, o: Order) {
    o.status == Shipping && o.expectedDelivery.Some? && o.expectedDelivery.value <= now
  }

  function Due(now: int): Order -> bool { (o: Order) => IsDue(now, o) }

  function Delivery(o: Order): int { if o.expectedDelivery.Some? then o.expectedDelivery.value else 0 }

  /** By expected delivery, then by id. */
  predicate Before(orders: seq<Order>, i: nat, j: nat) {
    && i < |orders| && j < |orders|
    && (Delivery(orders[i]) < Delivery(orders[j]) || (Delivery(orders[i]) == Delivery(orders[j]) && i < j))
  }

  ghost predicate Ordered(orders: seq<Order>, ids: seq<nat>) {
    && (forall k :: 0 <= k < |ids| ==> ids[k] < |orders|)
    && forall j, k :: 0 <= j < k < |ids| ==> Before(orders, ids[j], ids[k])
  }

  function Insert(orders: seq<Order>, ids: seq<nat>, i: nat): seq<nat> {
    if ids == [] then [i]
    else
      var n := |ids| - 1;
      if Before(orders, ids[n], i) then ids + [i] else Insert(orders, ids[..n], i) + [ids[n]]
  }

  lemma {:induction false} InsertMeans(orders: seq<Order>, ids: seq<nat>, i: nat)
    requires i < |orders| && Ordered(orders, ids) && i !in ids
    ensures var r := Insert(orders, ids, i);
      Ordered(orders, r) && |r| == |ids| + 1 && forall x: nat :: x in r <==> x in ids || x == i
  {
    if ids != [] {
      var n := |ids| - 1;
      assert ids == ids[..n] + [ids[n]];
      if !Before(orders, ids[n], i) {
        InsertMeans(orders, ids[..n], i);
        var front := Insert(orders, ids[..n], i);
        forall k | 0 <= k < |front| ensures Before(orders, front[k], ids[n]) {
          assert front[k] in front;
        }
      }
    }
  }

  /** The due rows among the first n, sorted. */
  function Ranked(now: int, orders: seq<Order>, n: nat): seq<nat>
    requires n <= |orders|
  {
    if n == 0 then []
    else
      var before := Ranked(now, orders, n - 1);
      if IsDue(now, orders[n - 1]) then Insert(orders, before, n - 1) else before
  }

  lemma {:induction false} RankedMeans(now: int, orders: seq<Order>, n: nat)
    requires n <= |orders|
    ensures var ids := Ranked(now, orders, n);
      && Ordered(orders, ids) && |ids| == Count(Due(now), orders[..n])
      && forall x: nat :: x in ids <==> x < n && IsDue(now, orders[x])
  {
    if n > 0 {
      RankedMeans(now, orders, n - 1);
      assert orders[..n][..n - 1] == orders[..n - 1];
      if IsDue(now, orders[n - 1]) { InsertMeans(orders, Ranked(now, orders, n - 1), n - 1); }
    }
  }

  function BatchSize(configured: int): (b: nat)
    ensures b >= 1 && b >= configured && (b == 1 || b == configured)
  {
    if configured < 1 then 1 else configured
  }

  function Page(now: int, orders: seq<Order>, b: nat): seq<nat> {
    var ids := Ranked(now, orders, |orders|);
    if |ids| <= b then ids else ids[..b]
  }

  /** Order i is on the page, or the page is full of orders that come before it. */
  ghost predicate TakenOrLater(orders: seq<Order>, page: seq<nat>, b: nat, i: nat) {
    i in page || (|page| == b && forall k :: 0 <= k < |page| ==> Before(orders, page[k], i))
  }

  lemma PageLeavesLater(now: int, orders: seq<Order>, b: nat, i: nat)
    requires i < |orders| && IsDue(now, orders[i])
    ensures TakenOrLater(orders, Page(now, orders, b), b, i)
  {
    RankedMeans(now, orders, |orders|);
    var ids, page := Ranked(now, orders, |orders|), Page(now, orders, b);
    var m :| 0 <= m < |ids| && ids[m] == i;
    if m < |page| { assert page[m] == i; }
  }

  /** Earlier expected delivery, or the same and the lower id. */
  predicate ComesFirst(orders: seq<Order>, i: nat, j: nat) {
    && i < |orders| && j < |orders| && orders[i].expectedDelivery.Some? && orders[j].expectedDelivery.Some?
    && (orders[i].expectedDelivery.value != orders[j].expectedDelivery.value ==>
          orders[i].expectedDelivery.value < orders[j].expectedDelivery.value)
    && (orders[i].expectedDelivery.value == orders[j].expectedDelivery.value ==> i < j)
  }

  lemma DueComesFirst(now: int, orders: seq<Order>, i: nat, j: nat)
    requires Before(orders, i, j) && IsDue(now, orders[i]) && IsDue(now, orders[j])
    ensures ComesFirst(orders, i, j)
  {
  }

  /** The page is as full as it can be, sorted, and only later deliveries are left for next time. */
  lemma PageMeans(now: int, orders: seq<Order>, b: nat)
    ensures var page := Page(now, orders, b);
      && Ordered(orders, page)
      && |page| == (if Count(Due(now), orders) < b then Count(Due(now), orders) else b)
      && (forall k :: 0 <= k < |page| ==> IsDue(now, orders[page[k]]))
      && (forall j, k :: 0 <= j < k < |page| ==> ComesFirst(orders, page[j], page[k]))
      && (forall i :: 0 <= i < |orders| && IsDue(now, orders[i]) ==> TakenOrLater(orders, page, b, i))
  {
    RankedMeans(now, orders, |orders|);
    assert orders[..|orders|] == orders;
    var ids, page := Ranked(now, orders, |orders|), Page(now, orders, b);
    assert forall k :: 0 <= k < |page| ==> page[k] == ids[k] && ids[k] in ids;
    forall j, k | 0 <= j < k < |page| ensures ComesFirst(orders, page[j], page[k]) {
      DueComesFirst(now, orders, page[j], page[k]);
    }
    forall i | 0 <= i < |orders| && IsDue(now, orders[i]) ensures TakenOrLater(orders, page, b, i) {
      PageLeavesLater(now, orders, b, i);
    }
  }

  // ---- one pass -------------------------------------------------------------------------------------

  /** saves(i): the save of order i met neither a version conflict nor another error. */
  function Passed(orders: seq<Order>, ids: seq<nat>, now: int, saves: nat -> bool): seq<Order> {
    if ids == [] then orders
    else
      var i := ids[|ids| - 1];
      var before := Passed(orders, ids[..|ids| - 1], now, saves);
      if i < |before| && Enabled(before[i], Complete(now)) && saves(i)
      then before[i := Apply(before[i], Complete(now))] else before
  }

  predicate Completes(orders: seq<Order>, ids: seq<nat>, now: int, saves: nat -> bool, i: nat)
    requires i < |orders|
  {
    i in ids && Enabled(orders[i], Complete(now)) && saves(i)
  }

  lemma {:induction false} PassedMeans(orders: seq<Order>, ids: seq<nat>, now: int, saves: nat -> bool)
    ensures var after := Passed(orders, ids, now, saves);
      && |after| == |orders|
      && forall i :: 0 <= i < |orders| ==>
           after[i] == if Completes(orders, ids, now, saves, i) then Apply(orders[i], Complete(now)) else orders[i]
  {
    if ids != [] {
      var front := ids[..|ids| - 1];
      PassedMeans(orders, front, now, saves);
      assert ids == front + [ids[|ids| - 1]];
    }
  }

  class AutoCompleteService {
    var running: bool
    var orders: seq<Order>

    constructor (rows: seq<Order>)
      ensures !running && orders == rows
    {
      running, orders := false, rows;
    }

    /** Reads the row again, lets the entity decide, and swallows a failed save. */
    method MarkCompletedIfDue(id: nat, now: int, saves: nat -> bool)
      modifies this`orders
      ensures orders == Passed(old(orders), [id], now, saves)
    {
      assert Passed(orders, [id][..0], now, saves) == orders;
      if id < |orders| {
        var row := orders[id];
        var entity := new OrderEntity.Load(row);
        var changed := entity.MarkCompletedIfDue(now);
        if changed && saves(id) {
          orders := orders[id := entity.Row().(version := row.version + 1)];
        }
      }
    }

    method AutoCompleteDeliveredOrders(batchSize: int, now: int, saves: nat -> bool)
      modifies this`orders
      ensures orders == Passed(old(orders), Page(now, old(orders), BatchSize(batchSize)), now, saves)
    {
      var candidates := Page(now, orders, BatchSize(batchSize));
      var i := 0;
      while i < |candidates|
        invariant 0 <= i <= |candidates|
        invariant orders == Passed(old(orders), candidates[..i], now, saves)
      {
        assert candidates[..i + 1][..i] == candidates[..i];
        MarkCompletedIfDue(candidates[i], now, saves);
        i := i + 1;
      }
      assert candidates[..|candidates|] == candidates;
    }

    /** runAutoComplete: at most one pass at a time, and the flag comes down however the pass ends. */
    method RunAutoComplete(batchSize: int, now: int, queryFails: bool, saves: nat -> bool)
      modifies this
      ensures running == old(running)
      ensures orders ==
        if old(running) || queryFails then old(orders)
        else Passed(old(orders), Page(now, old(orders), BatchSize(batchSize)), now, saves)
    {
      if running {
        return;
      }
      running := true;
      if !queryFails {
        AutoCompleteDeliveredOrders(batchSize, now, saves);
      }
      running := false;
    }
  }

  // ---- no candidate is passed over for ever -----------------------------------------------------------

  /** completeTime is set exactly on COMPLETED rows. */
  predicate Tidy(o: Order) { o.completeTime.Some? <==> o.status == Completed }

  /** For such rows the finder asks for exactly the rows that can be completed. */
  lemma DueExactlyWhenEnabled(o: Order, now: int)
    requires Tidy(o)
    ensures IsDue(now, o) <==> Enabled(o, Complete(now))
  {
  }

  /** That is so for every order created by this service, in every interleaving. */
  lemma CreatedOrdersAreTidy(w0: OrderSaga.World, ls: seq<OrderSaga.Label>, i: nat)
    requires OrderSaga.Initial(w0) && OrderSaga.Exec(w0, ls).Some?
    requires |w0.orders| <= i < |OrderSaga.Exec(w0, ls).value.orders|
    ensures Tidy(OrderSaga.Exec(w0, ls).value.orders[i])
  {
    OrderTheorems.CommittedOrder(w0, ls, i);
  }

  ghost predicate AllTidy(orders: seq<Order>) { forall i :: 0 <= i < |orders| ==> Tidy(orders[i]) }

  predicate IsCompleted(orders: seq<Order>, i: nat) { i < |orders| && orders[i].status == Completed }

  predicate IsUnstamped(orders: seq<Order>, i: nat) { i < |orders| && orders[i].completeTime.None? }

  /** A pass without conflicts completes every candidate just when none carries a completeTime. */
  lemma PassCompletesPage(now: int, orders: seq<Order>, b: nat, saves: nat -> bool)
    requires forall i :: saves(i)
    ensures var page := Page(now, orders, b);
      (forall i :: i in page ==> IsCompleted(Passed(orders, page, now, saves), i))
      <==> (forall i :: i in page ==> IsUnstamped(orders, i))
  {
    PageMeans(now, orders, b);
    var page := Page(now, orders, b);
    PassedMeans(orders, page, now, saves);
    var after := Passed(orders, page, now, saves);
    forall i | i in page
      ensures IsCompleted(after, i) <==> IsUnstamped(orders, i)
    {
      assert Completes(orders, page, now, saves, i) <==> orders[i].completeTime.None?;
    }
  }

  /** A full page of SHIPPING rows that already carry a completeTime would be picked, skipped and
      left in place by every pass: nothing changes, so nothing behind it is ever reached. */
  lemma {:induction false} StrandedPageBlocks(orders: seq<Order>, ids: seq<nat>, now: int, saves: nat -> bool)
    requires forall k :: 0 <= k < |ids| && ids[k] < |orders| ==> orders[ids[k]].completeTime.Some?
    ensures Passed(orders, ids, now, saves) == orders
  {
    PassedMeans(orders, ids, now, saves);
  }

  // ---- draining while the shop goes on ----------------------------------------------------------------

  datatype Event =
    | Pass(now: int)             // an auto-complete pass without conflicts
    | Commit(id: nat, op: Op)    // any other committed change
    | NewOrder(order: Order)     // a new order

  const ALWAYS: nat -> bool := (i: nat) => true

  function After(orders: seq<Order>, e: Event, b: nat): seq<Order> {
    match e
    case Pass(now) => Passed(orders, Page(now, orders, b), now, ALWAYS)
    case Commit(id, op) => if id < |orders| && Enabled(orders[id], op) then orders[id := Apply(orders[id], op)] else orders
    case NewOrder(o) => orders + [o]
  }

  function AfterAll(orders: seq<Order>, es: seq<Event>, b: nat): seq<Order> {
    if es == [] then orders else After(AfterAll(orders, es[..|es| - 1], b), es[|es| - 1], b)
  }

  /** The event happens at `start` or later. */
  predicate Since(start: int, e: Event) {
    match e
    case Pass(now) => start <= now
    case Commit(_, op) => op.Approve? ==> start <= op.now
    case NewOrder(o) => IsFresh(o)
  }

  function Passes(es: seq<Event>): nat {
    if es == [] then 0 else Passes(es[..|es| - 1]) + if es[|es| - 1].Pass? then 1 else 0
  }

  lemma EventsKeepTidy(orders: seq<Order>, e: Event, b: nat, start: int)
    requires AllTidy(orders) && Since(start, e)
    ensures AllTidy(After(orders, e, b))
  {
    if e.Pass? { PassedMeans(orders, Page(e.now, orders, b), e.now, ALWAYS); }
  }

  /** How many of the listed rows have f. */
  function Hits(f: Order -> bool, orders: seq<Order>, ids: seq<nat>): (n: nat)
    ensures n <= |ids|
  {
    if ids == [] then 0
    else
      var i := ids[|ids| - 1];
      Hits(f, orders, ids[..|ids| - 1]) + if i < |orders| && f(orders[i]) then 1 else 0
  }

  lemma {:induction false} AllHit(f: Order -> bool, orders: seq<Order>, ids: seq<nat>)
    requires forall k :: 0 <= k < |ids| ==> ids[k] < |orders| && f(orders[ids[k]])
    ensures Hits(f, orders, ids) == |ids|
  {
    if ids != [] { AllHit(f, orders, ids[..|ids| - 1]); }
  }

  lemma CompletionTakes(start: int, now: int, orders: seq<Order>, i: nat)
    requires i < |orders|
    ensures Count(Due(start), orders[i := Apply(orders[i], Complete(now))])
         == Count(Due(start), orders) - if IsDue(start, orders[i]) then 1 else 0
  {
    CountUpdate(Due(start), orders, i, Apply(orders[i], Complete(now)));
  }

  lemma LastIsNew(orders: seq<Order>, ids: seq<nat>)
    requires ids != [] && Ordered(orders, ids)
    ensures Ordered(orders, ids[..|ids| - 1]) && ids[|ids| - 1] !in ids[..|ids| - 1]
  {
    assert forall k :: 0 <= k < |ids| - 1 ==> Before(orders, ids[k], ids[|ids| - 1]);
  }

  lemma {:induction false} PassTakes(start: int, now: int, orders: seq<Order>, ids: seq<nat>)
    requires Ordered(orders, ids)
    requires forall k :: 0 <= k < |ids| ==> Enabled(orders[ids[k]], Complete(now))
    ensures Count(Due(start), Passed(orders, ids, now, ALWAYS))
         == Count(Due(start), orders) - Hits(Due(start), orders, ids)
  {
    if ids != [] {
      var front, i := ids[..|ids| - 1], ids[|ids| - 1];
      LastIsNew(orders, ids);
      PassTakes(start, now, orders, front);
      PassedMeans(orders, front, now, ALWAYS);
      CompletionTakes(start, now, Passed(orders, front, now, ALWAYS), i);
    }
  }

  /** A later pass sees more due rows, but takes the ones that were due at `start` first. */
  lemma PassTakesOldestFirst(start: int, now: int, orders: seq<Order>, b: nat)
    requires AllTidy(orders) && start <= now
    ensures Count(Due(start), After(orders, Pass(now), b)) == AfterBatches(Count(Due(start), orders), b, 1)
  {
    PageMeans(now, orders, b);
    var page := Page(now, orders, b);
    var after := Passed(orders, page, now, ALWAYS);
    PassTakes(start, now, orders, page);
    PassedMeans(orders, page, now, ALWAYS);
    assert AfterBatches(Count(Due(start), orders), b, 0) == Count(Due(start), orders);
    if i :| 0 <= i < |orders| && IsDue(start, orders[i]) && i !in page {
      assert IsDue(now, orders[i]) && TakenOrLater(orders, page, b, i);
      assert forall k :: 0 <= k < |page| ==> Before(orders, page[k], i);
      AllHit(Due(start), orders, page);
    } else {
      forall i | 0 <= i < |after| ensures !IsDue(start, after[i]) {
        if IsDue(start, orders[i]) { assert Completes(orders, page, now, ALWAYS, i); }
      }
      CountZero(Due(start), after);
    }
  }

  lemma {:induction false} BatchesMonotone(m: nat, n: nat, b: nat, k: nat)
    requires m <= n
    ensures AfterBatches(m, b, k) <= AfterBatches(n, b, k)
  {
    if k > 0 { BatchesMonotone(m, n, b, k - 1); }
  }

  lemma NothingNewIsDue(orders: seq<Order>, e: Event, b: nat, start: int)
    requires Since(start, e) && !e.Pass?
    ensures Count(Due(start), After(orders, e, b)) <= Count(Due(start), orders)
  {
    match e
    case Commit(id, op) =>
      if id < |orders| && Enabled(orders[id], op) {
        CountUpdate(Due(start), orders, id, Apply(orders[id], op));
        if op.Approve? { Calendar.NextWorkdayIsFirst(op.now, 0); }
      }
    case NewOrder(o) =>
      CountAppend(Due(start), orders, o);
  }

  /** At most n orders are left that were due at `start`. */
  ghost predicate Leaves(orders: seq<Order>, start: int, n: nat) {
    AllTidy(orders) && Count(Due(start), orders) <= n
  }

  lemma EventDrains(orders: seq<Order>, e: Event, b: nat, start: int, n: nat)
    requires Leaves(orders, start, n) && Since(start, e)
    ensures Leaves(After(orders, e, b), start, AfterBatches(n, b, if e.Pass? then 1 else 0))
  {
    EventsKeepTidy(orders, e, b, start);
    if e.Pass? {
      PassTakesOldestFirst(start, e.now, orders, b);
      BatchesMonotone(Count(Due(start), orders), n, b, 1);
    } else {
      NothingNewIsDue(orders, e, b, start);
    }
  }

  lemma BatchesAdd(n: nat, b: nat, k: nat)
    ensures AfterBatches(AfterBatches(n, b, k), b, 1) == AfterBatches(n, b, k + 1)
    ensures AfterBatches(AfterBatches(n, b, k), b, 0) == AfterBatches(n, b, k)
  {
    assert AfterBatches(AfterBatches(n, b, k), b, 0) == AfterBatches(n, b, k);
  }

  /** Whatever else is created, paid, approved, cancelled or rejected in between: of the n orders due
      at `start`, k passes leave at most what k batches leave of n. */
  lemma {:induction false} DueOrdersDrain(orders: seq<Order>, es: seq<Event>, b: nat, start: int, n: nat)
    requires Leaves(orders, start, n) && forall k :: 0 <= k < |es| ==> Since(start, es[k])
    ensures Leaves(AfterAll(orders, es, b), start, AfterBatches(n, b, Passes(es)))
  {
    if es != [] {
      var front, e := es[..|es| - 1], es[|es| - 1];
      DueOrdersDrain(orders, front, b, start, n);
      var before, k := AfterAll(orders, front, b), Passes(front);
      EventDrains(before, e, b, start, AfterBatches(n, b, k));
      BatchesAdd(n, b, k);
      assert AfterAll(orders, es, b) == After(before, e, b) && Passes(es) == k + if e.Pass? then 1 else 0;
    }
  }

  predicate Waits(orders: seq<Order>, start: int, i: nat) {
    i < |orders| && (IsDue(start, orders[i]) || orders[i].status == Completed)
  }

  lemma StillWaits(orders: seq<Order>, e: Event, b: nat, start: int, i: nat)
    requires Waits(orders, start, i)
    ensures Waits(After(orders, e, b), start, i)
  {
    if e.Pass? { PassedMeans(orders, Page(e.now, orders, b), e.now, ALWAYS); }
  }

  /** Nothing but completion can happen to an order that is out for delivery. */
  lemma {:induction false} DueOrCompleted(orders: seq<Order>, es: seq<Event>, b: nat, start: int, i: nat)
    requires Waits(orders, start, i)
    ensures Waits(AfterAll(orders, es, b), start, i)
  {
    if es != [] {
      var front := es[..|es| - 1];
      DueOrCompleted(orders, front, b, start, i);
      StillWaits(AfterAll(orders, front, b), es[|es| - 1], b, start, i);
    }
  }

  /** So ceil(n / batch) passes without conflicts complete every order that was due. */
  lemma AllDueAreCompleted(orders: seq<Order>, es: seq<Event>, b: nat, start: int, i: nat)
    requires b > 0 && AllTidy(orders) && forall k :: 0 <= k < |es| ==> Since(start, es[k])
    requires Count(Due(start), orders) <= Passes(es) * b
    requires i < |orders| && IsDue(start, orders[i])
    ensures IsCompleted(AfterAll(orders, es, b), i)
  {
    DueOrdersDrain(orders, es, b, start, Count(Due(start), orders));
    BatchesDrain(Count(Due(start), orders), b, Passes(es));
    CountZero(Due(start), AfterAll(orders, es, b));
    DueOrCompleted(orders, es, b, start, i);
  }
}
