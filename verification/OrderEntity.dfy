/** The order entity as the service changes it: setter by setter, between a read and the commit.
    Each method is one operation's writes, proved equal to the row change it stands for. */
module OrderEntities {
  import opened Options
  import opened Orders
  import Calendar

  class OrderEntity {
    const user: int
    const requestNo: Option<string>
    const product: int
    const quantity: nat
    const version: nat
    var total: int
    var origin: Option<int>
    var discount: Option<int>
    var final: Option<int>
    var status: Status
    var shipTime: Option<int>
    var expectedDelivery: Option<int>
    var completeTime: Option<int>

    function Row(): Order
      reads this
    {
      Order(user, requestNo, product, quantity, total, origin, discount, final,
            status, shipTime, expectedDelivery, completeTime, version)
    }

    constructor Load(row: Order)
      ensures Row() == row
    {
      user, requestNo, product, quantity, version := row.user, row.requestNo, row.product, row.quantity, row.version;
      total, origin, discount, final := row.total, row.origin, row.discount, row.final;
      status, shipTime, expectedDelivery, completeTime :=
        row.status, row.shipTime, row.expectedDelivery, row.completeTime;
    }

    /** The row that the commit of `op` writes, but for the version, which JPA sets. */
    twostate predicate Carries(op: Op)
      reads this
    {
      Row() == Apply(old(Row()), op).(version := version)
    }

    /** ensurePayableAmountPrepared: the coupon platform is asked unless all amounts are there. */
    method EnsurePayableAmountPrepared(claim: Claim)
      requires ClaimFits(Row(), claim)
      modifies this
      ensures Row() == Prepare(old(Row()), claim)
      ensures old(final).Some? && old(discount).Some? && old(origin).Some? ==> Row() == old(Row())
      ensures old(final).None? || old(discount).None? || old(origin).None? ==>
        && origin == Some(if old(origin).Some? then old(origin).value else old(total))
        && discount == Some(if claim.Granted? then claim.reply.discount else 0)
        && final == (if claim.Granted? then Some(claim.reply.final) else origin) && final == Some(total)
      ensures status == old(status) && shipTime == old(shipTime) && expectedDelivery == old(expectedDelivery)
      ensures completeTime == old(completeTime)
    {
      if final.Some? && discount.Some? && origin.Some? {
        return;
      }
      var originAmount := ResolveOrigin(Row());
      var discountAmount, finalAmount := 0, originAmount;
      if claim.Granted? {
        discountAmount, finalAmount := claim.reply.discount, claim.reply.final;
      }
      origin := Some(originAmount);
      discount := Some(discountAmount);
      final := Some(finalAmount);
      total := finalAmount;
    }

    /** doPayOrder: prepare, charge, then mark paid; an order that is not waiting for payment is
        answered as it stands or refused. */
    method DoPay(claim: Claim) returns (charged: Option<int>)
      requires status == Paying ==> ClaimFits(Row(), claim)
      modifies this
      ensures charged.Some? <==> old(status) == Paying
      ensures charged.Some? ==> old(Enabled(Row(), Pay(claim, charged.value))) && Carries(Pay(claim, charged.value))
      ensures charged.Some? ==> status == PaidPendingApproval && PaidAs(old(Row()), Row(), claim, charged.value)
      ensures charged.None? ==> Row() == old(Row())
    {
      if status != Paying {
        return None;
      }
      EnsurePayableAmountPrepared(claim);
      charged := Some(PayableAmount(Row()));
      status := PaidPendingApproval;
      total := charged.value;
    }

    method DoCancel() returns (ok: bool)
      modifies this
      ensures ok <==> old(Enabled(Row(), Cancel))
      ensures ok <==> old(status) in {PendingApproval, PaidPendingApproval, Paying}
      ensures if ok then Carries(Cancel) else Row() == old(Row())
      ensures ok ==> Row() == old(Row()).(status := Cancelled)
    {
      ok := status == PendingApproval || status == PaidPendingApproval || status == Paying;
      if ok {
        status := Cancelled;
      }
    }

    method DoApprove(now: int) returns (ok: bool)
      modifies this
      ensures ok <==> old(Enabled(Row(), Approve(now)))
      ensures ok <==> old(status) in {PendingApproval, PaidPendingApproval}
      ensures if ok then Carries(Approve(now)) else Row() == old(Row())
      ensures ok ==> status == Shipping && shipTime == Some(now)
      ensures ok ==> expectedDelivery.Some? && Calendar.IsNextWorkday(now, expectedDelivery.value)
    {
      ok := status == PendingApproval || status == PaidPendingApproval;
      if ok {
        status := Shipping;
        shipTime := Some(now);
        var due := Calendar.NextWorkdayAtFixedTime(now);
        Calendar.NextWorkdayIsFirst(now, due);
        expectedDelivery := Some(due);
      }
    }

    /** reject: REFUNDING while the refund runs, REJECTED when it has come back; None when the
        guard refuses. The intermediate status is overwritten before anything is committed. */
    method DoReject(refundSucceeds: bool) returns (refund: Option<int>)
      modifies this
      ensures refund.Some? <==> old(status) in {PendingApproval, PaidPendingApproval}
      ensures refund.Some? ==> refund.value == if old(final).Some? then old(final).value else old(total)
      ensures refund.Some? ==> Row() == old(Row()).(status := if refundSucceeds then Rejected else Refunding)
      ensures refund.Some? ==> old(Enabled(Row(), Reject(refund.value)))
      ensures refund.Some? && refundSucceeds ==> Carries(Reject(refund.value))
      ensures refund.None? ==> Row() == old(Row())
    {
      if status != PendingApproval && status != PaidPendingApproval {
        return None;
      }
      status := Refunding;
      refund := Some(if final.Some? then final.value else total);
      if refundSucceeds {
        status := Rejected;
      }
    }

    /** markCompletedIfDue: three early returns, then the completion. */
    method MarkCompletedIfDue(now: int) returns (done: bool)
      modifies this
      ensures done <==> old(Enabled(Row(), Complete(now)))
      ensures done <==>
        && old(status) == Shipping && old(completeTime).None?
        && old(expectedDelivery).Some? && old(expectedDelivery).value <= now
      ensures if done then Carries(Complete(now)) else Row() == old(Row())
      ensures done ==> Row() == old(Row()).(status := Completed, completeTime := Some(now))
    {
      if status != Shipping {
        return false;
      }
      if expectedDelivery.None? || expectedDelivery.value > now {
        return false;
      }
      if completeTime.Some? {
        return false;
      }
      status := Completed;
      completeTime := Some(now);
      return true;
    }
  }
}
