/** The coupon-issue retry service: tasks keyed by order number, retried in due-time batches until
    they succeed or run out of retries. */
module CouponRetry {
  import opened Options
  import opened Sums
  import opened Paging

  datatype TaskStatus = Pending | Success | Failed

  datatype Task = Task(orderNo: string, status: TaskStatus, retryCount: nat, nextRetry: int)

  /** max and delay as the service uses them: at least one retry, at least one second. */
  datatype Config = Config(maxRetries: int, delaySeconds: int)

  function Max(cfg: Config): (n: nat)
    ensures n >= 1 && n >= cfg.maxRetries && (n == 1 || n == cfg.maxRetries)
  {
    if cfg.maxRetries < 1 then 1 else cfg.maxRetries
  }

  function Delay(cfg: Config): (n: nat)
    ensures n >= 1 && n >= cfg.delaySeconds && (n == 1 || n == cfg.delaySeconds)
  {
    if cfg.delaySeconds < 1 then 1 else cfg.delaySeconds
  }

  function IsDue(now: int): Task -> bool { (t: Task) => t.status == Pending && t.nextRetry <= now }

  predicate IsTerminal(t: Task) { t.status != Pending }

  function Rescheduled(cfg: Config, t: Task, now: int): Task {
    if IsTerminal(t) then t else t.(nextRetry := now + Delay(cfg))
  }

  function NewTask(cfg: Config, orderNo: string, now: int): Task { Task(orderNo, Pending, 0, now + Delay(cfg)) }

  function Marked(cfg: Config, t: Task, ok: bool, now: int): Task {
    if ok then t.(status := Success)
    else
      var n := t.retryCount + 1;
      if n >= Max(cfg) then t.(status := Failed, retryCount := n, nextRetry := now)
      else t.(status := Pending, retryCount := n, nextRetry := now + Delay(cfg))
  }

  /** A scheduled task is due exactly from the delay on; scheduling again counts nothing and forgets
      nothing, and finished tasks are left alone. */
  lemma ScheduledTasks(cfg: Config, t: Task, orderNo: string, now: int, later: int)
    ensures var made := NewTask(cfg, orderNo, now);
      made.orderNo == orderNo && made.retryCount == 0 && (IsDue(later)(made) <==> later >= now + Delay(cfg))
    ensures var again := Rescheduled(cfg, t, now);
      && again.orderNo == t.orderNo && again.retryCount == t.retryCount && again.status == t.status
      && (t.status == Pending ==> (IsDue(later)(again) <==> later >= now + Delay(cfg)))
      && (t.status != Pending ==> again == t)
  {
  }

  /** A mark counts a failure and nothing else; a task that failed for the last time is FAILED, any other
      failure waits for the delay. */
  lemma MarkedTasks(cfg: Config, t: Task, ok: bool, now: int, later: int)
    requires t.status == Pending
    ensures var after := Marked(cfg, t, ok, now);
      && after.orderNo == t.orderNo
      && (ok ==> after.status == Success && after.retryCount == t.retryCount)
      && (!ok ==> after.retryCount == t.retryCount + 1)
      && (!ok ==> (after.status == Failed <==> t.retryCount + 1 >= cfg.maxRetries))
      && (!ok && after.status != Failed ==> (IsDue(later)(after) <==> later >= now + Delay(cfg)))
  {
  }

  /** Nothing but ASCII white space. */
  predicate IsBlank(s: string) {
    forall i :: 0 <= i < |s| ==> s[i] in {' ', '\t', '\n', '\r'}
  }

  function FindTask(tasks: seq<Task>, orderNo: string): (r: Option<nat>)
    ensures r.Some? ==> r.value < |tasks| && tasks[r.value].orderNo == orderNo
    ensures r.None? ==> forall i :: 0 <= i < |tasks| ==> tasks[i].orderNo != orderNo
  {
    if tasks == [] then None
    else if tasks[|tasks| - 1].orderNo == orderNo then Some(|tasks| - 1)
    else FindTask(tasks[..|tasks| - 1], orderNo)
  }

  // ---- the service, one request at a time -------------------------------------------------------------------

  /** The tasks after a pass over the page: each is issued once and marked. */
  function AfterPass(cfg: Config, tasks: seq<Task>, page: seq<nat>, issue: nat -> bool, now: int): (after: seq<Task>)
    ensures |after| == |tasks|
  {
    if page == [] then tasks
    else
      var before := AfterPass(cfg, tasks, page[..|page| - 1], issue, now);
      var i := page[|page| - 1];
      if i < |before| then before[i := Marked(cfg, before[i], issue(i), now)] else before
  }

  class RetryService {
    const cfg: Config
    var tasks: seq<Task>

    constructor (cfg: Config)
      ensures this.cfg == cfg && tasks == []
    {
      this.cfg := cfg;
      tasks := [];
    }

    /** scheduleRetry: a new task, or the pending one put off; terminal ones are left alone. */
    method ScheduleRetry(enabled: bool, orderNo: string, now: int)
      modifies this`tasks
      ensures !enabled || IsBlank(orderNo) ==> tasks == old(tasks)
      ensures enabled && !IsBlank(orderNo) ==>
        match FindTask(old(tasks), orderNo)
        case None => tasks == old(tasks) + [NewTask(cfg, orderNo, now)]
        case Some(i) => tasks == old(tasks)[i := Rescheduled(cfg, old(tasks)[i], now)]
    {
      if !enabled || IsBlank(orderNo) {
        return;
      }
      var found := FindTask(tasks, orderNo);
      if found.None? {
        tasks := tasks + [Task(orderNo, Pending, 0, now + Delay(cfg))];
        return;
      }
      var task := tasks[found.value];
      if task.status == Success || task.status == Failed {
        return;
      }
      tasks := tasks[found.value := task.(status := Pending, nextRetry := now + Delay(cfg))];
    }

    method MarkSuccess(id: nat, ghost now: int)
      modifies this`tasks
      ensures tasks == if id < |old(tasks)| then old(tasks)[id := Marked(cfg, old(tasks)[id], true, now)] else old(tasks)
    {
      if id < |tasks| {
        tasks := tasks[id := tasks[id].(status := Success)];
      }
    }

    method MarkFailure(id: nat, now: int)
      modifies this`tasks
      ensures tasks == if id < |old(tasks)| then old(tasks)[id := Marked(cfg, old(tasks)[id], false, now)] else old(tasks)
    {
      if id < |tasks| {
        var task := tasks[id];
        var nextRetryCount := task.retryCount + 1;
        if nextRetryCount >= Max(cfg) {
          tasks := tasks[id := task.(status := Failed, retryCount := nextRetryCount, nextRetry := now)];
        } else {
          tasks := tasks[id := task.(status := Pending, retryCount := nextRetryCount, nextRetry := now + Delay(cfg))];
        }
      }
    }

    /** retryPendingTasks: up to 50 due tasks by id, each issued and then marked. */
    method RetryPendingTasks(enabled: bool, issue: nat -> bool, now: int)
      modifies this`tasks
      ensures !enabled ==> tasks == old(tasks)
      ensures enabled ==> tasks == AfterPass(cfg, old(tasks), FirstWhere(IsDue(now), old(tasks), 50), issue, now)
    {
      if !enabled {
        return;
      }
      var page := FirstWhere(IsDue(now), tasks, 50);
      var k := 0;
      while k < |page|
        invariant 0 <= k <= |page|
        invariant tasks == AfterPass(cfg, old(tasks), page[..k], issue, now)
      {
        assert page[..k + 1][..k] == page[..k];
        var id := page[k];
        if issue(id) {
          MarkSuccess(id, now);
        } else {
          MarkFailure(id, now);
        }
        k := k + 1;
      }
      assert page[..|page|] == page;
    }
  }

  // ---- termination ----------------------------------------------------------------------------------------------

  /** Retries a task still has in it. */
  function Budget(cfg: Config, t: Task): int { if IsTerminal(t) then 0 else Max(cfg) - t.retryCount }

  ghost function BudgetOf(cfg: Config): Task -> int { (t: Task) => Budget(cfg, t) }
  ghost function Potential(cfg: Config, tasks: seq<Task>): int { SumBy(BudgetOf(cfg), tasks) }

  ghost predicate WithinBudget(cfg: Config, tasks: seq<Task>) {
    forall i :: 0 <= i < |tasks| ==> IsTerminal(tasks[i]) || tasks[i].retryCount < Max(cfg)
  }

  ghost predicate Ascending(page: seq<nat>) {
    forall j, k :: 0 <= j < k < |page| ==> page[j] < page[k]
  }

  /** A pass costs every task on its page at least one retry. */
  lemma {:induction false} PassSpends(cfg: Config, tasks: seq<Task>, page: seq<nat>, issue: nat -> bool, now: int)
    requires WithinBudget(cfg, tasks) && Ascending(page)
    requires forall k :: 0 <= k < |page| ==> page[k] < |tasks| && !IsTerminal(tasks[page[k]])
    ensures var after := AfterPass(cfg, tasks, page, issue, now);
      && WithinBudget(cfg, after)
      && Potential(cfg, after) <= Potential(cfg, tasks) - |page|
      && (forall i :: 0 <= i < |tasks| && i !in page ==> after[i] == tasks[i])
  {
    if page != [] {
      var front, i := page[..|page| - 1], page[|page| - 1];
      PassSpends(cfg, tasks, front, issue, now);
      var before := AfterPass(cfg, tasks, front, issue, now);
      assert i !in front;
      assert before[i] == tasks[i];
      SumUpdate(BudgetOf(cfg), before, i, Marked(cfg, before[i], issue(i), now));
      assert Budget(cfg, Marked(cfg, before[i], issue(i), now)) <= Budget(cfg, before[i]) - 1;
      forall n | 0 <= n < |tasks| && n !in page ensures AfterPass(cfg, tasks, page, issue, now)[n] == tasks[n] {
        assert n !in front;
      }
    }
  }

  /** Two retries of one task are at least the delay apart: what a pass has tried is not due again
      before that, whatever the platform answered. */
  lemma {:induction false} RetriesAreSpaced(
    cfg: Config, tasks: seq<Task>, page: seq<nat>, issue: nat -> bool, now: int, later: int, i: nat)
    requires WithinBudget(cfg, tasks) && Ascending(page) && i in page && i < |tasks| && later < now + Delay(cfg)
    ensures !IsDue(later)(AfterPass(cfg, tasks, page, issue, now)[i])
  {
    var front, last := page[..|page| - 1], page[|page| - 1];
    assert page == front + [last];
    if i != last { RetriesAreSpaced(cfg, tasks, front, issue, now, later, i); }
  }

  /** One scheduled pass: its time, and what the coupon platform answered for each task. */
  datatype Run = Run(now: int, issue: nat -> bool)

  ghost function AfterRuns(cfg: Config, tasks: seq<Task>, runs: seq<Run>): seq<Task> {
    if runs == [] then tasks
    else
      var before, r := AfterRuns(cfg, tasks, runs[..|runs| - 1]), runs[|runs| - 1];
      AfterPass(cfg, before, FirstWhere(IsDue(r.now), before, 50), r.issue, r.now)
  }

  /** How many of the passes found anything to do. */
  ghost function Productive(cfg: Config, tasks: seq<Task>, runs: seq<Run>): nat {
    if runs == [] then 0
    else
      var before, r := AfterRuns(cfg, tasks, runs[..|runs| - 1]), runs[|runs| - 1];
      Productive(cfg, tasks, runs[..|runs| - 1]) + if FirstWhere(IsDue(r.now), before, 50) == [] then 0 else 1
  }

  lemma {:induction false} RunsSpend(cfg: Config, tasks: seq<Task>, runs: seq<Run>)
    requires WithinBudget(cfg, tasks)
    ensures WithinBudget(cfg, AfterRuns(cfg, tasks, runs)) && |AfterRuns(cfg, tasks, runs)| == |tasks|
    ensures Productive(cfg, tasks, runs) + Potential(cfg, AfterRuns(cfg, tasks, runs)) <= Potential(cfg, tasks)
  {
    if runs != [] {
      RunsSpend(cfg, tasks, runs[..|runs| - 1]);
      var before, r := AfterRuns(cfg, tasks, runs[..|runs| - 1]), runs[|runs| - 1];
      FirstWhereSelects(IsDue(r.now), before, 50);
      PassSpends(cfg, before, FirstWhere(IsDue(r.now), before, 50), r.issue, r.now);
    }
  }

  lemma {:induction false} PotentialAtMost(cfg: Config, tasks: seq<Task>)
    ensures Potential(cfg, tasks) <= |tasks| * Max(cfg)
  {
    if tasks != [] {
      PotentialAtMost(cfg, tasks[..|tasks| - 1]);
      assert |tasks| * Max(cfg) == (|tasks| - 1) * Max(cfg) + Max(cfg);
    }
  }

  /** With no tasks added, at most n × max passes find anything to do, whatever the platform answers;
      and when that many have, every task is SUCCESS or FAILED. */
  lemma RetriesTerminate(cfg: Config, tasks: seq<Task>, runs: seq<Run>)
    requires WithinBudget(cfg, tasks)
    ensures Productive(cfg, tasks, runs) <= |tasks| * Max(cfg)
    ensures Productive(cfg, tasks, runs) == |tasks| * Max(cfg) ==>
      forall i :: 0 <= i < |tasks| ==> i < |AfterRuns(cfg, tasks, runs)| && IsTerminal(AfterRuns(cfg, tasks, runs)[i])
  {
    RunsSpend(cfg, tasks, runs);
    PotentialAtMost(cfg, tasks);
    var after := AfterRuns(cfg, tasks, runs);
    SumNonNegative(BudgetOf(cfg), after);
    if i :| 0 <= i < |after| && !IsTerminal(after[i]) {
      SumNonNegative(BudgetOf(cfg), after[i := after[i].(status := Success)]);
      SumUpdate(BudgetOf(cfg), after, i, after[i].(status := Success));
    }
  }

  // ---- how soon -------------------------------------------------------------------------------------------------

  /** Passes at least the delay apart. */
  predicate SpacedOut(cfg: Config, runs: seq<Run>) {
    forall k :: 0 <= k < |runs| - 1 ==> runs[k].now + Delay(cfg) <= runs[k + 1].now
  }

  ghost predicate AllDue(tasks: seq<Task>, now: int) {
    forall i :: 0 <= i < |tasks| && !IsTerminal(tasks[i]) ==> tasks[i].nextRetry <= now
  }

  /** Tasks below b are finished; each of the next fifty is, or has used up r retries. */
  ghost predicate Cleared(tasks: seq<Task>, b: nat, r: nat) {
    && (forall i :: 0 <= i < |tasks| && i < b ==> IsTerminal(tasks[i]))
    && (forall i :: 0 <= i < |tasks| && i < b + 50 ==> IsTerminal(tasks[i]) || tasks[i].retryCount >= r)
  }

  lemma {:induction false} AfterPassMeans(cfg: Config, tasks: seq<Task>, page: seq<nat>, issue: nat -> bool, now: int, i: nat)
    requires Ascending(page) && i < |tasks|
    ensures AfterPass(cfg, tasks, page, issue, now)[i] == if i in page then Marked(cfg, tasks[i], issue(i), now) else tasks[i]
  {
    if page != [] {
      var front, last := page[..|page| - 1], page[|page| - 1];
      AfterPassMeans(cfg, tasks, front, issue, now, i);
      assert page == front + [last];
    }
  }

  lemma {:induction false} AscendingFrom(page: seq<nat>, b: nat, k: nat)
    requires Ascending(page) && k < |page| && forall j :: 0 <= j < |page| ==> b <= page[j]
    ensures b + k <= page[k]
  {
    if k > 0 { AscendingFrom(page, b, k - 1); }
  }

  /** Fifty places are enough for the fifty lowest ids that may be pending. */
  lemma PageHolds(tasks: seq<Task>, b: nat, r: nat, now: int, i: nat)
    requires Cleared(tasks, b, r) && AllDue(tasks, now) && i < |tasks| && i < b + 50 && !IsTerminal(tasks[i])
    ensures i in FirstWhere(IsDue(now), tasks, 50)
  {
    FirstWhereSelects(IsDue(now), tasks, 50);
    FirstWhereLeavesLater(IsDue(now), tasks, 50, i);
    var page := FirstWhere(IsDue(now), tasks, 50);
    assert forall j :: 0 <= j < |page| ==> b <= page[j];
    if |page| == 50 { AscendingFrom(page, b, 49); }
  }

  lemma TaskAfterPass(cfg: Config, tasks: seq<Task>, b: nat, r: nat, run: Run, i: nat)
    requires Cleared(tasks, b, r) && AllDue(tasks, run.now) && i < |tasks|
    ensures var t := AfterPass(cfg, tasks, FirstWhere(IsDue(run.now), tasks, 50), run.issue, run.now)[i];
      && (i < b ==> IsTerminal(t))
      && (i < b + 50 ==> IsTerminal(t) || t.retryCount >= r + 1)
      && (IsTerminal(t) || t.nextRetry <= run.now + Delay(cfg))
  {
    var page := FirstWhere(IsDue(run.now), tasks, 50);
    FirstWhereSelects(IsDue(run.now), tasks, 50);
    AfterPassMeans(cfg, tasks, page, run.issue, run.now, i);
    if IsTerminal(tasks[i]) {
      assert i !in page;
    } else if i < b + 50 {
      PageHolds(tasks, b, r, run.now, i);
    }
  }

  lemma PassClears(cfg: Config, tasks: seq<Task>, b: nat, r: nat, run: Run)
    requires Cleared(tasks, b, r) && AllDue(tasks, run.now)
    ensures var after := AfterPass(cfg, tasks, FirstWhere(IsDue(run.now), tasks, 50), run.issue, run.now);
      Cleared(after, b, r + 1) && AllDue(after, run.now + Delay(cfg))
  {
    var after := AfterPass(cfg, tasks, FirstWhere(IsDue(run.now), tasks, 50), run.issue, run.now);
    forall i | 0 <= i < |after|
      ensures i < b ==> IsTerminal(after[i])
      ensures i < b + 50 ==> IsTerminal(after[i]) || after[i].retryCount >= r + 1
      ensures IsTerminal(after[i]) || after[i].nextRetry <= run.now + Delay(cfg)
    {
      TaskAfterPass(cfg, tasks, b, r, run, i);
    }
  }

  lemma FullRound(cfg: Config, tasks: seq<Task>, b: nat)
    requires WithinBudget(cfg, tasks) && Cleared(tasks, b, Max(cfg))
    ensures Cleared(tasks, b + 50, 0)
  {
  }

  /** q rounds of max passes each: q * max. */
  function RoundsOf(max: nat, q: nat): nat { if q == 0 then 0 else RoundsOf(max, q - 1) + max }

  lemma {:induction false} RoundsOfIs(max: nat, q: nat)
    ensures RoundsOf(max, q) == q * max
  {
    if q > 0 {
      RoundsOfIs(max, q - 1);
      assert q * max == (q - 1) * max + max;
    }
  }

  /** After q rounds of max passes each and r more passes, the first 50 q tasks are finished. */
  lemma {:induction false} RoundsClear(cfg: Config, tasks: seq<Task>, runs: seq<Run>, q: nat, r: nat)
    requires WithinBudget(cfg, tasks) && SpacedOut(cfg, runs) && (runs != [] ==> AllDue(tasks, runs[0].now))
    requires |runs| == RoundsOf(Max(cfg), q) + r
    ensures Cleared(AfterRuns(cfg, tasks, runs), 50 * q, r)
    ensures runs != [] ==> AllDue(AfterRuns(cfg, tasks, runs), runs[|runs| - 1].now + Delay(cfg))
    decreases |runs|, q
  {
    if r > 0 {
      var front, run := runs[..|runs| - 1], runs[|runs| - 1];
      RoundsClear(cfg, tasks, front, q, r - 1);
      if front != [] { assert front[|front| - 1] == runs[|runs| - 2]; }
      assert AllDue(AfterRuns(cfg, tasks, front), run.now);
      PassClears(cfg, AfterRuns(cfg, tasks, front), 50 * q, r - 1, run);
    } else if q > 0 {
      RoundsClear(cfg, tasks, runs, q - 1, Max(cfg));
      RunsSpend(cfg, tasks, runs);
      FullRound(cfg, AfterRuns(cfg, tasks, runs), 50 * (q - 1));
    }
  }

  /** So n tasks are all finished after ceil(n / 50) * max(maxRetries, 1) passes, whatever the platform
      answers, if the passes are the delay apart and start when every task is due. */
  lemma RetriesDrain(cfg: Config, tasks: seq<Task>, runs: seq<Run>, q: nat, r: nat, i: nat)
    requires WithinBudget(cfg, tasks) && SpacedOut(cfg, runs) && (runs != [] ==> AllDue(tasks, runs[0].now))
    requires |tasks| <= 50 * q && |runs| == q * Max(cfg) + r && i < |tasks|
    ensures i < |AfterRuns(cfg, tasks, runs)| && IsTerminal(AfterRuns(cfg, tasks, runs)[i])
  {
    RoundsOfIs(Max(cfg), q);
    RoundsClear(cfg, tasks, runs, q, r);
    RunsSpend(cfg, tasks, runs);
  }
}
