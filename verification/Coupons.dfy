/** The coupon engine of the product service: thresholds, half-up money, balances, best claim.
    Amounts are whole cents; a coupon type is its percentage. */
module Coupons {
  import opened Options

  // ---- half-up rounding ------------------------------------------------------------------

  /** Decimal.quantize with ROUND_HALF_UP: n/d to the nearest whole number, ties away from zero. */
  function HalfUp(n: int, d: int): int
    requires d > 0
  {
    if n >= 0 then (2 * n + d) / (2 * d) else -((-2 * n + d) / (2 * d))
  }

  /** What half-up rounding means, without saying how it is computed. */
  predicate RoundsTo(n: int, d: int, r: int) {
    && -d <= 2 * (d * r - n) <= d
    && (2 * (d * r - n) == d ==> n >= 0)
    && (2 * (d * r - n) == -d ==> n < 0)
  }

  lemma HalfUpRounds(n: int, d: int)
    requires d > 0
    ensures RoundsTo(n, d, HalfUp(n, d))
  {
    var m := if n >= 0 then n else -n;
    var q := (2 * m + d) / (2 * d);
    assert 2 * m + d == (2 * d) * q + (2 * m + d) % (2 * d);
    assert (2 * d) * q == 2 * (d * q);
    if n < 0 {
      assert d * -q == -(d * q);
    }
  }

  lemma {:induction false} StepsApart(d: int, r: int, s: int)
    requires d > 0 && r > s
    ensures d * r >= d * s + d
    decreases r - s
  {
    assert d * r == d * (r - 1) + d;
    if r > s + 1 { StepsApart(d, r - 1, s); }
  }

  /** The description picks one value only, so HalfUp is the only function that meets it. */
  lemma RoundingIsUnique(n: int, d: int, r: int, s: int)
    requires d > 0 && RoundsTo(n, d, r) && RoundsTo(n, d, s)
    ensures r == s
  {
    if r > s { StepsApart(d, r, s); }
    if s > r { StepsApart(d, s, r); }
  }

  lemma HalfUpMonotone(n: int, m: int, d: int)
    requires d > 0 && n <= m
    ensures HalfUp(n, d) <= HalfUp(m, d)
  {
    HalfUpRounds(n, d);
    HalfUpRounds(m, d);
    var r, s := HalfUp(n, d), HalfUp(m, d);
    if r > s { StepsApart(d, r, s); }
  }

  // ---- thresholds and discounts -----------------------------------------------------------

  function IssueType(amount: int): Option<int> {
    if amount >= 80000 then Some(30)
    else if amount >= 50000 then Some(20)
    else if amount >= 20000 then Some(10)
    else None
  }

  function AllowedTypes(amount: int): seq<int> {
    if amount >= 90000 then [30, 20, 10]
    else if amount >= 60000 then [20, 10]
    else if amount >= 30000 then [10]
    else []
  }

  function Discount(amount: int, coupon: int): int {
    HalfUp(amount * coupon, 100)
  }

  /** The tiers as a rule: a percentage t may be spent from 30 times t up and is earned from 30 times t
      less 100 up (in whole units of money), the largest one reached. */
  lemma TiersAreLinear(amount: int, t: int)
    requires t == 10 || t == 20 || t == 30
    ensures t in AllowedTypes(amount) <==> amount >= 3000 * t
    ensures IssueType(amount).Some? && IssueType(amount).value >= t <==> amount >= 3000 * t - 10000
    ensures IssueType(amount).Some? ==> IssueType(amount).value in {10, 20, 30}
    ensures forall i, j :: 0 <= i < j < |AllowedTypes(amount)| ==> AllowedTypes(amount)[i] > AllowedTypes(amount)[j]
  {
  }

  /** A claim spends a coupon only above a threshold that keeps the order worth a new coupon. */
  lemma ClaimingStillEarns(amount: int, coupon: int)
    requires coupon in AllowedTypes(amount)
    ensures 0 < Discount(amount, coupon) < amount
    ensures RoundsTo(amount * coupon, 100, Discount(amount, coupon))
    ensures IssueType(amount - Discount(amount, coupon)).Some?
    ensures coupon == 30 ==> IssueType(amount - Discount(amount, coupon)).value >= 20
  {
    HalfUpRounds(amount * coupon, 100);
    assert coupon == 10 || coupon == 20 || coupon == 30;
  }

  /** The engine's answer to a claim: the rounded amount, the type spent (0 for none), what comes off
      and what is left. */
  datatype Reply = Reply(amount: int, coupon: int, discount: int, final: int)

  /** What every answer to a claim for n/d cents promises. */
  predicate Answers(n: int, d: int, r: Reply) {
    && RoundsTo(n, d, r.amount) && r.discount + r.final == r.amount
    && (r.coupon == 0 || r.coupon in AllowedTypes(r.amount))
    && r.discount == Discount(r.amount, r.coupon)
  }

  /** For an amount in whole cents: nothing is lost, and a discount leaves enough for a new coupon. */
  lemma AnswersForCents(amount: int, r: Reply)
    requires Answers(amount, 1, r)
    ensures r.amount == amount && r.discount + r.final == amount
    ensures r.discount != 0 ==> 0 < r.discount < amount && IssueType(r.final).Some?
  {
    if r.coupon == 0 {
      assert Discount(r.amount, 0) == 0;
    } else {
      ClaimingStillEarns(r.amount, r.coupon);
    }
  }

  // ---- balances -----------------------------------------------------------------------------

  type Balances = map<(int, int), int>

  function Get(b: Balances, user: int, coupon: int): int {
    if (user, coupon) in b then b[(user, coupon)] else 0
  }

  /** The type the claim script hands out: the first listed one with a positive balance, or 0. */
  function FirstAvailable(b: Balances, user: int, types: seq<int>): int {
    if types == [] then 0
    else if Get(b, user, types[0]) > 0 then types[0]
    else FirstAvailable(b, user, types[1..])
  }

  function Added(b: Balances, user: int, coupon: int, delta: int): Balances {
    b[(user, coupon) := Get(b, user, coupon) + delta]
  }

  function AfterClaim(b: Balances, user: int, types: seq<int>): Balances {
    var t := FirstAvailable(b, user, types);
    if t == 0 then b else Added(b, user, t, -1)
  }

  ghost predicate IsFirst(b: Balances, user: int, types: seq<int>, t: int, k: int) {
    && 0 <= k < |types| && types[k] == t && Get(b, user, t) > 0
    && forall i :: 0 <= i < k ==> Get(b, user, types[i]) <= 0
  }

  /** The script scans left to right: it returns 0 exactly when nothing listed is held, and
      otherwise a held type with no held type before it. */
  lemma {:induction false} FirstAvailableIsFirst(b: Balances, user: int, types: seq<int>)
    requires 0 !in types
    ensures var t := FirstAvailable(b, user, types);
      && (t == 0 <==> forall i :: 0 <= i < |types| ==> Get(b, user, types[i]) <= 0)
      && (t != 0 ==> exists k :: IsFirst(b, user, types, t, k))
  {
    if types != [] && Get(b, user, types[0]) > 0 {
      assert IsFirst(b, user, types, types[0], 0);
    } else if types != [] {
      FirstAvailableIsFirst(b, user, types[1..]);
      var t := FirstAvailable(b, user, types[1..]);
      if t != 0 {
        var k :| IsFirst(b, user, types[1..], t, k);
        forall i | 0 <= i < k + 1 ensures Get(b, user, types[i]) <= 0 {
          if i > 0 { assert types[i] == types[1..][i - 1]; }
        }
        assert IsFirst(b, user, types, t, k + 1);
      } else {
        forall i | 0 <= i < |types| ensures Get(b, user, types[i]) <= 0 {
          if i > 0 { assert types[i] == types[1..][i - 1]; }
        }
      }
    }
  }

  /** First in the list is best for the customer: no other coupon that the user holds and the
      amount allows would have taken more off. */
  lemma FirstAvailableIsBest(b: Balances, user: int, amount: int, other: int)
    requires other in AllowedTypes(amount) && Get(b, user, other) > 0
    ensures var t := FirstAvailable(b, user, AllowedTypes(amount));
      && t in AllowedTypes(amount) && Get(b, user, t) > 0
      && Discount(amount, t) >= Discount(amount, other)
  {
    var types := AllowedTypes(amount);
    FirstAvailableIsFirst(b, user, types);
    var t := FirstAvailable(b, user, types);
    var k :| IsFirst(b, user, types, t, k);
    var j :| 0 <= j < |types| && types[j] == other;
    assert k <= j;
    assert t >= other;
    assert amount * t >= amount * other;
    HalfUpMonotone(amount * other, amount * t, 100);
  }

  // ---- conservation over whole runs ----------------------------------------------------------

  datatype Request = Issue(user: int, coupon: int) | Claim(user: int, types: seq<int>)

  /** The engine's state with the history of what was handed out and taken back. */
  datatype Engine = Engine(balances: Balances, issued: multiset<(int, int)>, claimed: multiset<(int, int)>)

  function Serve(e: Engine, r: Request): Engine {
    match r
    case Issue(u, t) => e.(balances := Added(e.balances, u, t, 1), issued := e.issued + multiset{(u, t)})
    case Claim(u, types) =>
      var t := FirstAvailable(e.balances, u, types);
      if t == 0 then e
      else e.(balances := AfterClaim(e.balances, u, types), claimed := e.claimed + multiset{(u, t)})
  }

  function ServeAll(rs: seq<Request>): Engine {
    if rs == [] then Engine(map[], multiset{}, multiset{})
    else Serve(ServeAll(rs[..|rs| - 1]), rs[|rs| - 1])
  }

  /** In every run a balance is what was issued less what was claimed, and is never overdrawn. */
  lemma {:induction false} BalancesConserve(rs: seq<Request>, user: int, coupon: int)
    requires forall i :: 0 <= i < |rs| && rs[i].Claim? ==> 0 !in rs[i].types
    ensures var e := ServeAll(rs);
      Get(e.balances, user, coupon) >= 0 && Get(e.balances, user, coupon) + e.claimed[(user, coupon)] == e.issued[(user, coupon)]
  {
    if rs != [] {
      var before := rs[..|rs| - 1];
      BalancesConserve(before, user, coupon);
      var r := rs[|rs| - 1];
      if r.Claim? {
        FirstAvailableIsFirst(ServeAll(before).balances, r.user, r.types);
      }
    }
  }

  // ---- the engine's operations ---------------------------------------------------------------

  datatype Refusal = RateLimited | EngineUnavailable

  datatype Answer<T> = Ok(value: T) | Refused(error: Refusal)

  class CouponStore {
    var balances: Balances

    constructor ()
      ensures balances == map[]
    {
      balances := map[];
    }

    method IssueOne(user: int, coupon: int) returns (after: int)
      modifies this
      ensures balances == Added(old(balances), user, coupon, 1)
      ensures after == Get(balances, user, coupon)
    {
      after := Get(balances, user, coupon) + 1;
      balances := balances[(user, coupon) := after];
    }

    /** issue_coupon_for_order: at most one coupon, of the type the rounded amount n/d earns. */
    method IssueForOrder(user: int, n: int, d: int, count: Option<int>, limit: int, up: bool)
      returns (r: Answer<Option<int>>)
      requires d > 0
      modifies this
      ensures r == Refused(RateLimited) <==> count.Some? && count.value > limit
      ensures r == Refused(EngineUnavailable) <==>
        !(count.Some? && count.value > limit) && IssueType(HalfUp(n, d)).Some? && !up
      ensures r.Ok? ==> r.value == IssueType(HalfUp(n, d))
      ensures balances ==
        if r.Ok? && r.value.Some? then Added(old(balances), user, r.value.value, 1) else old(balances)
    {
      if count.Some? && count.value > limit {
        return Refused(RateLimited);
      }
      var coupon := IssueType(HalfUp(n, d));
      if coupon.None? {
        return Ok(None);
      }
      if !up {
        return Refused(EngineUnavailable);
      }
      var after := IssueOne(user, coupon.value);
      return Ok(coupon);
    }

    /** The claim script: scan the types in order, take one from the first positive balance. */
    method ClaimBest(user: int, types: seq<int>) returns (coupon: int)
      requires 0 !in types
      modifies this
      ensures coupon == FirstAvailable(old(balances), user, types)
      ensures balances == AfterClaim(old(balances), user, types)
    {
      var i := 0;
      while i < |types|
        invariant 0 <= i <= |types|
        invariant balances == old(balances)
        invariant FirstAvailable(balances, user, types) == FirstAvailable(balances, user, types[i..])
      {
        var qty := Get(balances, user, types[i]);
        if qty > 0 {
          balances := balances[(user, types[i]) := qty - 1];
          return types[i];
        }
        i := i + 1;
      }
      return 0;
    }

    /** claim_best_coupon_for_order: `count` is the limiter's answer (None when Redis is down),
        `up` whether the claim script could be run; the order amount is n/d cents. */
    method ClaimForOrder(user: int, n: int, d: int, count: Option<int>, limit: int, up: bool)
      returns (r: Answer<Reply>)
      requires d > 0
      modifies this
      ensures r == Refused(RateLimited) <==> count.Some? && count.value > limit
      ensures r == Refused(EngineUnavailable) <==>
        !(count.Some? && count.value > limit) && AllowedTypes(HalfUp(n, d)) != [] && !up
      ensures r.Refused? ==> balances == old(balances)
      ensures r.Ok? ==>
        && Answers(n, d, r.value)
        && r.value.coupon == FirstAvailable(old(balances), user, AllowedTypes(r.value.amount))
        && balances == AfterClaim(old(balances), user, AllowedTypes(r.value.amount))
      ensures r.Ok? && r.value.coupon != 0 ==>
        0 < r.value.discount < r.value.amount && IssueType(r.value.final).Some?
    {
      if count.Some? && count.value > limit {
        return Refused(RateLimited);
      }
      var amount := HalfUp(n, d);
      HalfUpRounds(n, d);
      assert Discount(amount, 0) == 0;
      var types := AllowedTypes(amount);
      if types == [] {
        return Ok(Reply(amount, 0, 0, amount));
      }
      if !up {
        return Refused(EngineUnavailable);
      }
      var coupon := ClaimBest(user, types);
      FirstAvailableIsFirst(old(balances), user, types);
      if coupon == 0 {
        return Ok(Reply(amount, 0, 0, amount));
      }
      assert coupon in types;
      ClaimingStillEarns(amount, coupon);
      var discount := HalfUp(amount * coupon, 100);
      return Ok(Reply(amount, coupon, discount, amount - discount));
    }
  }
}
