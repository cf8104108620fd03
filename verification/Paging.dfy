/** "The first `limit` rows with f, by id": what the Spring Data finders with a Top50 or a page
    bound return, and how batches of them use up the rows that qualify. */
module Paging {
  function Count<T>(f: T -> bool, rows: seq<T>): nat {
    if rows == [] then 0
    else Count(f, rows[..|rows| - 1]) + if f(rows[|rows| - 1]) then 1 else 0
  }

  function FirstWhere<T>(f: T -> bool, rows: seq<T>, limit: nat): seq<nat> {
    if rows == [] then []
    else
      var n := |rows| - 1;
      var ids := FirstWhere(f, rows[..n], limit);
      if |ids| < limit && f(rows[n]) then ids + [n] else ids
  }

  /** ids are strictly increasing row numbers of rows with f. */
  ghost predicate Selects<T>(f: T -> bool, rows: seq<T>, ids: seq<nat>) {
    && (forall k :: 0 <= k < |ids| ==> ids[k] < |rows| && f(rows[ids[k]]))
    && (forall j, k :: 0 <= j < k < |ids| ==> ids[j] < ids[k])
  }

  lemma SelectsMore<T>(f: T -> bool, rows: seq<T>, n: nat, ids: seq<nat>)
    requires n <= |rows| && Selects(f, rows[..n], ids)
    ensures Selects(f, rows, ids)
  {
    forall k | 0 <= k < |ids| ensures ids[k] < |rows| && f(rows[ids[k]]) {
      assert rows[..n][ids[k]] == rows[ids[k]];
    }
  }

  lemma SelectsOneMore<T>(f: T -> bool, rows: seq<T>, ids: seq<nat>, n: nat)
    requires Selects(f, rows, ids) && n < |rows| && f(rows[n]) && forall k :: 0 <= k < |ids| ==> ids[k] < n
    ensures Selects(f, rows, ids + [n])
  {
  }

  lemma {:induction false} FirstWhereSelects<T>(f: T -> bool, rows: seq<T>, limit: nat)
    ensures var ids := FirstWhere(f, rows, limit);
      Selects(f, rows, ids) && |ids| == if Count(f, rows) < limit then Count(f, rows) else limit
  {
    if rows != [] {
      var n := |rows| - 1;
      var ids := FirstWhere(f, rows[..n], limit);
      FirstWhereSelects(f, rows[..n], limit);
      assert forall k :: 0 <= k < |ids| ==> ids[k] < n;
      SelectsMore(f, rows, n, ids);
      if f(rows[n]) { SelectsOneMore(f, rows, ids, n); }
    }
  }

  /** Row i is on the page, or the page is full of earlier rows. */
  ghost predicate TakenOrLate(ids: seq<nat>, limit: nat, i: nat) {
    i in ids || (|ids| == limit && forall k :: 0 <= k < |ids| ==> ids[k] < i)
  }

  lemma {:induction false} FirstWhereLeavesLater<T>(f: T -> bool, rows: seq<T>, limit: nat, i: nat)
    requires i < |rows| && f(rows[i])
    ensures TakenOrLate(FirstWhere(f, rows, limit), limit, i)
  {
    var n := |rows| - 1;
    if i < n {
      FirstWhereLeavesLater(f, rows[..n], limit, i);
    } else {
      FirstWhereSelects(f, rows[..n], limit);
    }
  }

  /** The page holds as many rows as there are, up to the limit, and leaves out only later ones. */
  lemma FirstWhereMeans<T>(f: T -> bool, rows: seq<T>, limit: nat)
    ensures var ids := FirstWhere(f, rows, limit);
      && Selects(f, rows, ids)
      && |ids| == (if Count(f, rows) < limit then Count(f, rows) else limit)
      && (forall i :: 0 <= i < |rows| && f(rows[i]) ==> TakenOrLate(ids, limit, i))
  {
    FirstWhereSelects(f, rows, limit);
    forall i | 0 <= i < |rows| && f(rows[i]) ensures TakenOrLate(FirstWhere(f, rows, limit), limit, i) {
      FirstWhereLeavesLater(f, rows, limit, i);
    }
  }

  lemma {:induction false} CountUpdate<T>(f: T -> bool, rows: seq<T>, i: nat, x: T)
    requires i < |rows|
    ensures Count(f, rows[i := x]) == Count(f, rows) - (if f(rows[i]) then 1 else 0) + if f(x) then 1 else 0
  {
    var n := |rows| - 1;
    if i == n {
      assert rows[i := x][..n] == rows[..n];
    } else {
      assert rows[i := x][..n] == rows[..n][i := x];
      CountUpdate(f, rows[..n], i, x);
    }
  }

  lemma CountAppend<T>(f: T -> bool, rows: seq<T>, x: T)
    ensures Count(f, rows + [x]) == Count(f, rows) + if f(x) then 1 else 0
  {
    assert (rows + [x])[..|rows|] == rows;
  }

  lemma {:induction false} CountWithin<T>(f: T -> bool, g: T -> bool, rows: seq<T>)
    requires forall i :: 0 <= i < |rows| && f(rows[i]) ==> g(rows[i])
    ensures Count(f, rows) <= Count(g, rows)
  {
    if rows != [] { CountWithin(f, g, rows[..|rows| - 1]); }
  }

  lemma {:induction false} CountZero<T>(f: T -> bool, rows: seq<T>)
    ensures Count(f, rows) == 0 <==> forall i :: 0 <= i < |rows| ==> !f(rows[i])
  {
    if rows != [] { CountZero(f, rows[..|rows| - 1]); }
  }

  /** What is left of n after k batches of b. */
  function AfterBatches(n: nat, b: nat, k: nat): nat {
    if k == 0 then n
    else
      var left := AfterBatches(n, b, k - 1);
      if left < b then 0 else left - b
  }

  /** ceil(n / b) batches use up n, and no fewer do. */
  lemma {:induction false} BatchesDrain(n: nat, b: nat, k: nat)
    requires b > 0
    ensures AfterBatches(n, b, k) == if n <= k * b then 0 else n - k * b
  {
    if k > 0 {
      BatchesDrain(n, b, k - 1);
      assert k * b == (k - 1) * b + b;
    }
  }
}
