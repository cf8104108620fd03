/** Creating an order is idempotent in (user, request_no), under any number of racing requests. */
module CreateIdempotency {
  import opened Options
  import opened Sums
  import opened Orders
  import opened OrderSaga
  import opened Refinement
  import opened StockLedger

  lemma FindDecidesKey(orders: seq<Order>, row: Order)
    requires UniqueKeys(orders) && row.requestNo.Some? && Find(orders, row.user, row.requestNo.value).None?
    ensures UniqueKeys(orders + [row])
  {
    forall i, j | 0 <= i < j < |orders + [row]| && (orders + [row])[i].requestNo.Some?
      ensures !((orders + [row])[i].user == (orders + [row])[j].user
                && (orders + [row])[i].requestNo == (orders + [row])[j].requestNo)
    {
      if j == |orders| { assert !HasKey(orders[i], row.user, row.requestNo.value); }
    }
  }

  lemma KeysStayUnique(w0: World, w: World, l: Label)
    requires Inv(w0, w) && Steps(w, l) && UniqueKeys(w.orders)
    ensures UniqueKeys(Step(w, l).orders)
  {
    var v := Step(w, l);
    if l.Insert? {
      if v.orders != w.orders {
        FindDecidesKey(w.orders, NewOrder(w.calls[l.c], w.calls[l.c].step.price));
      }
    } else if l.Commit? {
      assert CallOk(w.orders, w.calls[l.c]);
      if CommitSucceeds(w, l.c, l.message, l.dbOk) { CommitWrites(w, l.c, l.message, l.dbOk); }
    } else {
      OrdersChangeOnlyByCommits(w, l);
    }
  }

  lemma {:induction false} KeysAreUnique(w0: World, ls: seq<Label>)
    requires Initial(w0) && Exec(w0, ls).Some?
    ensures UniqueKeys(Exec(w0, ls).value.orders)
  {
    if ls != [] {
      KeysAreUnique(w0, ls[..|ls| - 1]);
      EveryRunIsSerial(w0, ls[..|ls| - 1]);
      KeysStayUnique(w0, Exec(w0, ls[..|ls| - 1]).value, ls[|ls| - 1]);
    }
  }

  predicate Answered(call: Call) { call.Create? && (call.step.Returned? || call.step.Created?) }

  predicate ForKey(call: Call, user: int, requestNo: string) {
    call.Create? && call.user == user && call.requestNo == requestNo
  }

  /** However many creates race with one (user, request_no): one order at most, and every normal
      answer names it. */
  lemma AnswersAgree(w0: World, ls: seq<Label>, a: nat, b: nat)
    requires Initial(w0) && Exec(w0, ls).Some?
    requires a < |Exec(w0, ls).value.calls| && b < |Exec(w0, ls).value.calls|
    requires var w := Exec(w0, ls).value;
      Answered(w.calls[a]) && Answered(w.calls[b]) && ForKey(w.calls[b], w.calls[a].user, w.calls[a].requestNo)
    ensures var w := Exec(w0, ls).value;
      && w.calls[a].step.id == w.calls[b].step.id < |w.orders|
      && HasKey(w.orders[w.calls[a].step.id], w.calls[a].user, w.calls[a].requestNo)
  {
    var w := Exec(w0, ls).value;
    EveryRunIsSerial(w0, ls);
    KeysAreUnique(w0, ls);
    assert CallOk(w.orders, w.calls[a]) && CallOk(w.orders, w.calls[b]);
  }

  // ---- rows keep who they are for ---------------------------------------------------------------

  lemma RowsKeepIdentity(w0: World, w: World, l: Label)
    requires Inv(w0, w) && Steps(w, l)
    ensures var v := Step(w, l);
      |w.orders| <= |v.orders| && forall i :: 0 <= i < |w.orders| ==> SameOrder(w.orders[i], v.orders[i])
  {
    if l.Commit? {
      assert CallOk(w.orders, w.calls[l.c]);
      if CommitSucceeds(w, l.c, l.message, l.dbOk) { CommitWrites(w, l.c, l.message, l.dbOk); }
    }
  }

  /** Whatever runs on, a row keeps its user, request number, product and quantity. */
  lemma {:induction false} IdentityStays(w0: World, ls: seq<Label>, ms: seq<Label>, i: nat)
    requires Initial(w0) && Exec(w0, ls).Some? && Exec(w0, ls + ms).Some? && i < |Exec(w0, ls).value.orders|
    ensures i < |Exec(w0, ls + ms).value.orders|
    ensures SameOrder(Exec(w0, ls).value.orders[i], Exec(w0, ls + ms).value.orders[i])
  {
    if ms == [] {
      assert ls + ms == ls;
    } else {
      var front := ms[..|ms| - 1];
      assert (ls + ms)[..|ls + ms| - 1] == ls + front;
      IdentityStays(w0, ls, front, i);
      EveryRunIsSerial(w0, ls + front);
      RowsKeepIdentity(w0, Exec(w0, ls + front).value, ms[|ms| - 1]);
    }
  }

  // ---- the quantity under one request number ------------------------------------------------------

  /** A request number of a user, and a product. */
  datatype Key = Key(user: int, requestNo: string, product: int)

  predicate OfKey(k: Key, c: Call) { ForKey(c, k.user, k.requestNo) && c.product == k.product }

  function KeyQuantity(k: Key, o: Order): int {
    if HasKey(o, k.user, k.requestNo) && o.product == k.product then o.quantity else 0
  }

  function KeyCreated(k: Key, c: Call): int { if OfKey(k, c) && c.step.Created? then c.quantity else 0 }

  function KeyLeaked(k: Key, c: Call): int { if OfKey(k, c) && c.leaked then c.quantity else 0 }

  /** Reserved and not given back by this create. */
  function KeyTaken(k: Key, c: Call): int {
    if OfKey(k, c) && (c.leaked || c.step.Holding? || c.step.Undoing? || c.step.Created?) then c.quantity else 0
  }

  ghost function QuantityOf(k: Key): Order -> int { (o: Order) => KeyQuantity(k, o) }
  ghost function CreatedOf(k: Key): Call -> int { (c: Call) => KeyCreated(k, c) }
  ghost function LeakedOf(k: Key): Call -> int { (c: Call) => KeyLeaked(k, c) }
  ghost function TakenOf(k: Key): Call -> int { (c: Call) => KeyTaken(k, c) }

  ghost function Unclaimed(w: World, k: Key): int {
    SumBy(QuantityOf(k), w.orders) - SumBy(CreatedOf(k), w.calls)
  }

  lemma InsertKeepsUnclaimed(w: World, c: nat, fault: InsertFault, k: Key)
    requires Steps(w, Insert(c, fault))
    ensures Unclaimed(DoInsert(w, c, fault), k) == Unclaimed(w, k)
  {
    var v := DoInsert(w, c, fault);
    SumUpdate(CreatedOf(k), w.calls, c, v.calls[c]);
    SumAppend(QuantityOf(k), w.orders, NewOrder(w.calls[c], w.calls[c].step.price));
  }

  lemma CommitKeepsUnclaimed(w: World, c: nat, message: string, dbOk: bool, k: Key)
    requires Steps(w, Commit(c, message, dbOk)) && CallOk(w.orders, w.calls[c])
    ensures Unclaimed(DoCommit(w, c, message, dbOk), k) == Unclaimed(w, k)
  {
    var v := DoCommit(w, c, message, dbOk);
    SumUpdate(CreatedOf(k), w.calls, c, v.calls[c]);
    if CommitSucceeds(w, c, message, dbOk) {
      CommitWrites(w, c, message, dbOk);
      SumUpdate(QuantityOf(k), w.orders, w.calls[c].order, v.orders[w.calls[c].order]);
    }
  }

  lemma OtherStepCreatesNothing(w: World, l: Label, k: Key)
    requires Steps(w, l) && OnCreate(l) && !l.Insert?
    ensures KeyCreated(k, Step(w, l).calls[l.c]) == KeyCreated(k, w.calls[l.c]) == 0
  {
  }

  lemma UnclaimedUpdate(w: World, v: World, c: nat, k: Key)
    requires c < |w.calls| == |v.calls| && v.calls == w.calls[c := v.calls[c]] && v.orders == w.orders
    requires KeyCreated(k, v.calls[c]) == KeyCreated(k, w.calls[c])
    ensures Unclaimed(v, k) == Unclaimed(w, k)
  {
    SumUpdate(CreatedOf(k), w.calls, c, v.calls[c]);
  }

  lemma UnclaimedAppend(w: World, v: World, x: Call, k: Key)
    requires v.calls == w.calls + [x] && v.orders == w.orders && KeyCreated(k, x) == 0
    ensures Unclaimed(v, k) == Unclaimed(w, k)
  {
    SumAppend(CreatedOf(k), w.calls, x);
  }

  lemma OtherStepKeepsUnclaimed(w: World, l: Label, k: Key)
    requires Steps(w, l) && !l.Insert? && !l.Commit?
    ensures Unclaimed(Step(w, l), k) == Unclaimed(w, k)
  {
    OrdersChangeOnlyByCommits(w, l);
    if OnCreate(l) {
      CreateStepTouches(w, l);
      OtherStepCreatesNothing(w, l, k);
      UnclaimedUpdate(w, Step(w, l), l.c, k);
    } else if OnChange(l) {
      ChangeStepTouches(w, l);
      UnclaimedUpdate(w, Step(w, l), l.c, k);
    } else if !l.Admin? {
      UnclaimedAppend(w, Step(w, l), Step(w, l).calls[|w.calls|], k);
    }
  }

  /** Over every run the quantity under a request number is what its creates inserted, and what was
      there before. */
  lemma {:induction false} RunsKeepUnclaimed(w0: World, ls: seq<Label>, k: Key)
    requires Initial(w0) && Exec(w0, ls).Some?
    ensures Unclaimed(Exec(w0, ls).value, k) == SumBy(QuantityOf(k), w0.orders)
  {
    if ls != [] {
      var w, l := Exec(w0, ls[..|ls| - 1]).value, ls[|ls| - 1];
      RunsKeepUnclaimed(w0, ls[..|ls| - 1], k);
      EveryRunIsSerial(w0, ls[..|ls| - 1]);
      if l.Insert? {
        InsertKeepsUnclaimed(w, l.c, l.fault, k);
      } else if l.Commit? {
        CommitKeepsUnclaimed(w, l.c, l.message, l.dbOk, k);
      } else {
        OtherStepKeepsUnclaimed(w, l, k);
      }
    }
  }

  lemma OneOwner(orders: seq<Order>, u: int, r: string, i: nat, j: nat)
    requires UniqueKeys(orders) && i < |orders| && j < |orders|
    requires HasKey(orders[i], u, r) && HasKey(orders[j], u, r)
    ensures i == j
  {
  }

  lemma KeySum(orders: seq<Order>, k: Key)
    requires UniqueKeys(orders)
    ensures SumBy(QuantityOf(k), orders) ==
      match Find(orders, k.user, k.requestNo) case Some(i) => KeyQuantity(k, orders[i]) case None => 0
  {
    match Find(orders, k.user, k.requestNo)
    case None => SumZero(QuantityOf(k), orders);
    case Some(i) =>
      forall j | 0 <= j < |orders| && j != i ensures KeyQuantity(k, orders[j]) == 0 {
        if HasKey(orders[j], k.user, k.requestNo) { OneOwner(orders, k.user, k.requestNo, i, j); }
      }
      SumSingle(QuantityOf(k), orders, i);
  }

  // ---- the stock its creates take off the shelf -----------------------------------------------------

  /** What a reserve or a compensation of one of the key's creates takes off the shelf of a product. */
  function TakenNow(w: World, l: Label, k: Key): int
    requires Steps(w, l)
  {
    if (l.Reserve? || l.Undo?) && ForKey(w.calls[l.c], k.user, k.requestNo)
    then Stock(w, k.product) - Stock(Step(w, l), k.product) else 0
  }

  function TakenAlong(w0: World, ls: seq<Label>, k: Key): int {
    if ls == [] then 0
    else
      var front, l := ls[..|ls| - 1], ls[|ls| - 1];
      TakenAlong(w0, front, k) +
      match Exec(w0, front) case Some(w) => (if Steps(w, l) then TakenNow(w, l, k) else 0) case None => 0
  }

  lemma TakenByMove(w: World, l: Label, k: Key)
    requires Steps(w, l) && (l.Reserve? || l.Undo?) && CountedOnce(w.calls[l.c])
    ensures KeyTaken(k, Step(w, l).calls[l.c]) == KeyTaken(k, w.calls[l.c]) + TakenNow(w, l, k)
  {
  }

  lemma TakenByOther(w: World, l: Label, k: Key)
    requires Steps(w, l) && OnCreate(l) && !l.Reserve? && !l.Undo?
    ensures KeyTaken(k, Step(w, l).calls[l.c]) == KeyTaken(k, w.calls[l.c])
  {
  }

  lemma TakenStep(w: World, l: Label, k: Key)
    requires NoDoubleCount(w) && Steps(w, l)
    ensures SumBy(TakenOf(k), Step(w, l).calls) == SumBy(TakenOf(k), w.calls) + TakenNow(w, l, k)
  {
    var calls := Step(w, l).calls;
    if OnCreate(l) {
      CreateStepTouches(w, l);
      if l.Reserve? || l.Undo? { TakenByMove(w, l, k); } else { TakenByOther(w, l, k); }
      SumUpdate(TakenOf(k), w.calls, l.c, calls[l.c]);
    } else if OnChange(l) {
      ChangeStepTouches(w, l);
      SumUpdate(TakenOf(k), w.calls, l.c, calls[l.c]);
    } else if !l.Admin? {
      SumAppend(TakenOf(k), w.calls, calls[|w.calls|]);
    }
  }

  /** The stock that the key's creates have moved is what they hold, have leaked or have turned into
      an order. */
  lemma {:induction false} TakenIsOnTheCalls(w0: World, ls: seq<Label>, k: Key)
    requires Initial(w0) && Exec(w0, ls).Some?
    ensures SumBy(TakenOf(k), Exec(w0, ls).value.calls) == TakenAlong(w0, ls, k)
  {
    if ls != [] {
      TakenIsOnTheCalls(w0, ls[..|ls| - 1], k);
      TotalIsConserved(w0, ls[..|ls| - 1], k.product);
      TakenStep(Exec(w0, ls[..|ls| - 1]).value, ls[|ls| - 1], k);
    }
  }

  lemma {:induction false} TakenSplits(calls: seq<Call>, k: Key)
    requires forall c :: 0 <= c < |calls| && ForKey(calls[c], k.user, k.requestNo) ==> Finished(calls[c])
    requires forall c :: 0 <= c < |calls| && calls[c].Create? && calls[c].leaked ==> !calls[c].step.Created?
    ensures SumBy(TakenOf(k), calls) == SumBy(CreatedOf(k), calls) + SumBy(LeakedOf(k), calls)
  {
    if calls != [] { TakenSplits(calls[..|calls| - 1], k); }
  }

  /** The quantity of the order under the key, if this run inserted it. */
  function Bought(w0: World, w: World, k: Key): int {
    match Find(w.orders, k.user, k.requestNo)
    case Some(i) => if i < |w0.orders| then 0 else KeyQuantity(k, w.orders[i])
    case None => 0
  }

  lemma BoughtIsCreated(w0: World, ls: seq<Label>, k: Key)
    requires Initial(w0) && Exec(w0, ls).Some?
    ensures SumBy(CreatedOf(k), Exec(w0, ls).value.calls) == Bought(w0, Exec(w0, ls).value, k)
  {
    var w := Exec(w0, ls).value;
    RunsKeepUnclaimed(w0, ls, k);
    KeysAreUnique(w0, ls);
    KeySum(w.orders, k);
    KeySum(w0.orders, k);
    forall i: nat | i < |w0.orders| ensures i < |w.orders| && SameOrder(w0.orders[i], w.orders[i]) {
      assert [] + ls == ls;
      IdentityStays(w0, [], ls, i);
    }
    match Find(w0.orders, k.user, k.requestNo)
    case None =>
    case Some(i) => OneOwner(w.orders, k.user, k.requestNo, i, Find(w.orders, k.user, k.requestNo).value);
  }

  /** Creates that raced with one request number, once they are over, have taken off each shelf the
      quantity of the one order that exists, whatever the others asked for, and what they leaked; so
      exactly the order's quantity if and only if none of them leaked. */
  lemma DuplicatesTakeOneOrder(w0: World, ls: seq<Label>, k: Key)
    requires Initial(w0) && Exec(w0, ls).Some?
    requires forall c :: 0 <= c < |Exec(w0, ls).value.calls| ==>
      ForKey(Exec(w0, ls).value.calls[c], k.user, k.requestNo) ==> Finished(Exec(w0, ls).value.calls[c])
    ensures var w := Exec(w0, ls).value;
      && TakenAlong(w0, ls, k) == Bought(w0, w, k) + SumBy(LeakedOf(k), w.calls)
      && (TakenAlong(w0, ls, k) == Bought(w0, w, k) <==>
            forall c :: 0 <= c < |w.calls| && OfKey(k, w.calls[c]) ==> !w.calls[c].leaked)
  {
    var w := Exec(w0, ls).value;
    TakenIsOnTheCalls(w0, ls, k);
    TotalIsConserved(w0, ls, k.product);
    TakenSplits(w.calls, k);
    BoughtIsCreated(w0, ls, k);
    EveryRunIsSerial(w0, ls);
    forall c | 0 <= c < |w.calls| ensures KeyLeaked(k, w.calls[c]) == 0 <==> OfKey(k, w.calls[c]) ==> !w.calls[c].leaked {
      assert CallOk(w.orders, w.calls[c]);
    }
    SumZeroExactly(LeakedOf(k), w.calls);
  }
}
