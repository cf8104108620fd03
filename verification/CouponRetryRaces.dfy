/** The retry service with its database round trips taken apart. scheduleRetry reads a task and later
    writes the whole row back; so does each mark of a running pass; the task table has no version
    column. One scheduler instance, any number of scheduleRetry calls. */
module CouponRetryRaces {
  import opened Options
  import opened Paging
  import opened CouponRetry

  datatype Copy = Copy(id: nat, row: Task)

  datatype Sched = Waiting(orderNo: string) | Holding(orderNo: string, copy: Option<Copy>) | Done

  /** Where the pass is with the current task: to be issued; answered; its row loaded for marking. */
  datatype Stage = Ready | Called(ok: bool) | Loaded(ok: bool, row: Task)

  datatype Pass = Idle | Busy(batch: seq<nat>, at: nat, stage: Stage)

  datatype State = State(
    tasks: seq<Task>,
    scheds: seq<Sched>,
    pass: Pass,
    tries: seq<nat>,    // times each task was issued by a pass
    fails: seq<nat>)    // times each task was marked failed

  datatype Label =
    | StartSched(orderNo: string)
    | SchedRead(k: nat)
    | SchedWrite(k: nat, now: int)
    | BeginPass(now: int)
    | Issue(ok: bool)
    | LoadRow
    | SaveRow(now: int, dbOk: bool)
    | Die

  predicate Steps(s: State, l: Label) {
    match l
    case StartSched(_) => true
    case SchedRead(k) => k < |s.scheds| && s.scheds[k].Waiting?
    case SchedWrite(k, _) => k < |s.scheds| && s.scheds[k].Holding?
    case BeginPass(_) => s.pass.Idle?
    case Issue(_) => s.pass.Busy? && s.pass.stage.Ready?
    case LoadRow => s.pass.Busy? && s.pass.stage.Called?
    case SaveRow(_, _) => s.pass.Busy? && s.pass.stage.Loaded?
    case Die => s.pass.Busy?
  }

  /** The task the pass is at. */
  predicate AtTask(s: State, i: nat) {
    s.pass.Busy? && s.pass.at < |s.pass.batch| && s.pass.batch[s.pass.at] == i
  }

  function Moved(p: Pass): Pass
    requires p.Busy?
  {
    if p.at + 1 < |p.batch| then p.(at := p.at + 1, stage := Ready) else Idle
  }

  function DoSchedWrite(cfg: Config, s: State, k: nat, now: int): State
    requires Steps(s, SchedWrite(k, now))
  {
    var call := s.scheds[k];
    var s := s.(scheds := s.scheds[k := Done]);
    match call.copy
    case Some(Copy(id, row)) =>
      if id < |s.tasks| && !IsTerminal(row) then s.(tasks := s.tasks[id := Rescheduled(cfg, row, now)]) else s
    case None =>
      if FindTask(s.tasks, call.orderNo).Some? then s
      else s.(tasks := s.tasks + [NewTask(cfg, call.orderNo, now)], tries := s.tries + [0], fails := s.fails + [0])
  }

  /** A mark that cannot be saved: after a success the service records a failure instead, after a
      failure the exception ends the pass. */
  function DoSaveRow(cfg: Config, s: State, now: int, dbOk: bool): State
    requires Steps(s, SaveRow(now, dbOk))
  {
    var p := s.pass;
    if p.at >= |p.batch| || p.batch[p.at] >= |s.tasks| || p.batch[p.at] >= |s.fails| then s.(pass := Idle)
    else
      var i := p.batch[p.at];
      if dbOk then
        s.(tasks := s.tasks[i := Marked(cfg, p.stage.row, p.stage.ok, now)], pass := Moved(p),
           fails := if p.stage.ok then s.fails else s.fails[i := s.fails[i] + 1])
      else if p.stage.ok then s.(pass := p.(stage := Called(false)))
      else s.(pass := Idle)
  }

  function Step(cfg: Config, s: State, l: Label): State
    requires Steps(s, l)
  {
    match l
    case StartSched(orderNo) => s.(scheds := s.scheds + [Waiting(orderNo)])
    case SchedRead(k) =>
      var orderNo := s.scheds[k].orderNo;
      var found := FindTask(s.tasks, orderNo);
      s.(scheds := s.scheds[k := Holding(orderNo,
        if found.Some? then Some(Copy(found.value, s.tasks[found.value])) else None)])
    case SchedWrite(k, now) => DoSchedWrite(cfg, s, k, now)
    case BeginPass(now) =>
      var page := FirstWhere(IsDue(now), s.tasks, 50);
      s.(pass := if page == [] then Idle else Busy(page, 0, Ready))
    case Issue(ok) =>
      var p := s.pass;
      if p.at < |p.batch| && p.batch[p.at] < |s.tries| then
        s.(pass := p.(stage := Called(ok)), tries := s.tries[p.batch[p.at] := s.tries[p.batch[p.at]] + 1])
      else s.(pass := Idle)
    case LoadRow =>
      var p := s.pass;
      if p.at < |p.batch| && p.batch[p.at] < |s.tasks| then
        s.(pass := p.(stage := Loaded(p.stage.ok, s.tasks[p.batch[p.at]])))
      else s.(pass := Idle)
    case SaveRow(now, dbOk) => DoSaveRow(cfg, s, now, dbOk)
    case Die => s.(pass := Idle)
  }

  const START := State([], [], Idle, [], [])

  function Exec(cfg: Config, ls: seq<Label>): Option<State> {
    if ls == [] then Some(START)
    else
      match Exec(cfg, ls[..|ls| - 1])
      case Some(s) => if Steps(s, ls[|ls| - 1]) then Some(Step(cfg, s, ls[|ls| - 1])) else None
      case None => None
  }

  // ---- every run ------------------------------------------------------------------------------------------

  /** Tasks still ahead of the pass are pending: nobody else makes a task terminal. */
  ghost predicate PassOk(s: State) {
    s.pass.Busy? ==>
      && Ascending(s.pass.batch) && s.pass.at < |s.pass.batch|
      && (forall j :: s.pass.at <= j < |s.pass.batch| ==>
            s.pass.batch[j] < |s.tasks| && !IsTerminal(s.tasks[s.pass.batch[j]]))
      && (s.pass.stage.Loaded? ==> !IsTerminal(s.pass.stage.row))
  }

  ghost predicate Inv(s: State) {
    |s.tries| == |s.tasks| == |s.fails| && PassOk(s)
  }

  lemma StepKeeps(cfg: Config, s: State, l: Label)
    requires Inv(s) && Steps(s, l)
    ensures Inv(Step(cfg, s, l))
  {
    if l.BeginPass? { FirstWhereSelects(IsDue(l.now), s.tasks, 50); }
  }

  lemma {:induction false} EveryRunKeeps(cfg: Config, ls: seq<Label>)
    requires Exec(cfg, ls).Some?
    ensures Inv(Exec(cfg, ls).value)
  {
    if ls != [] {
      EveryRunKeeps(cfg, ls[..|ls| - 1]);
      StepKeeps(cfg, Exec(cfg, ls[..|ls| - 1]).value, ls[|ls| - 1]);
    }
  }

  predicate LateFor(s: State, k: nat, i: nat) {
    && k < |s.scheds| && s.scheds[k].Holding? && s.scheds[k].copy.Some?
    && s.scheds[k].copy.value.id == i && !IsTerminal(s.scheds[k].copy.value.row)
  }

  lemma ReopeningStep(cfg: Config, s: State, l: Label, i: nat)
    requires Inv(s) && Steps(s, l) && i < |s.tasks| && IsTerminal(s.tasks[i])
    ensures var v := Step(cfg, s, l);
      |v.tasks| >= |s.tasks| && (!IsTerminal(v.tasks[i]) <==> l.SchedWrite? && LateFor(s, l.k, i))
  {
  }

  /** SUCCESS and FAILED are not absorbing as the code stands. In any reachable state, the steps that
      reopen a finished task are exactly the write-backs of a scheduleRetry that read the task while
      it was still pending. */
  lemma WhatReopensATask(cfg: Config, ls: seq<Label>, l: Label, i: nat)
    requires Exec(cfg, ls).Some? && Steps(Exec(cfg, ls).value, l)
    requires i < |Exec(cfg, ls).value.tasks| && IsTerminal(Exec(cfg, ls).value.tasks[i])
    ensures var s := Exec(cfg, ls).value; var v := Step(cfg, s, l);
      && |v.tasks| >= |s.tasks|
      && (!IsTerminal(v.tasks[i]) <==> l.SchedWrite? && LateFor(s, l.k, i))
  {
    EveryRunKeeps(cfg, ls);
    ReopeningStep(cfg, Exec(cfg, ls).value, l, i);
  }

  lemma TerminalStep(cfg: Config, s: State, l: Label, i: nat)
    requires Inv(s) && Steps(s, l) && i < |s.tasks| && IsTerminal(s.tasks[i])
    requires !(l.SchedWrite? && LateFor(s, l.k, i))
    ensures i < |Step(cfg, s, l).tasks| && Step(cfg, s, l).tasks[i].status == s.tasks[i].status
  {
  }

  /** Some step of ms, run after ls, writes back a copy of task i that was read while pending. */
  predicate SomeLate(cfg: Config, ls: seq<Label>, ms: seq<Label>, i: nat) {
    ms != [] &&
      var front, l := ms[..|ms| - 1], ms[|ms| - 1];
      || SomeLate(cfg, ls, front, i)
      || match Exec(cfg, ls + front) case Some(s) => l.SchedWrite? && LateFor(s, l.k, i) case None => false
  }

  predicate TerminalThroughout(cfg: Config, ls: seq<Label>, ms: seq<Label>, i: nat) {
    && Exec(cfg, ls + ms).Some? && i < |Exec(cfg, ls + ms).value.tasks| && IsTerminal(Exec(cfg, ls + ms).value.tasks[i])
    && (ms != [] ==> TerminalThroughout(cfg, ls, ms[..|ms| - 1], i))
  }

  /** Over whole runs: a finished task stays finished throughout exactly when no such write-back is
      among the steps, and then its status is the one it finished with. */
  lemma {:induction false} TerminalIsAbsorbing(cfg: Config, ls: seq<Label>, ms: seq<Label>, i: nat)
    requires Exec(cfg, ls).Some? && Exec(cfg, ls + ms).Some?
    requires i < |Exec(cfg, ls).value.tasks| && IsTerminal(Exec(cfg, ls).value.tasks[i])
    ensures TerminalThroughout(cfg, ls, ms, i) <==> !SomeLate(cfg, ls, ms, i)
    ensures !SomeLate(cfg, ls, ms, i) ==>
      Exec(cfg, ls + ms).value.tasks[i].status == Exec(cfg, ls).value.tasks[i].status
  {
    if ms == [] {
      assert ls + ms == ls;
    } else {
      var front, l := ms[..|ms| - 1], ms[|ms| - 1];
      assert (ls + ms)[..|ls + ms| - 1] == ls + front;
      TerminalIsAbsorbing(cfg, ls, front, i);
      var s := Exec(cfg, ls + front).value;
      EveryRunKeeps(cfg, ls + front);
      if !SomeLate(cfg, ls, front, i) {
        ReopeningStep(cfg, s, l, i);
        if !(l.SchedWrite? && LateFor(s, l.k, i)) { TerminalStep(cfg, s, l, i); }
      }
    }
  }

  // ---- a pass with nothing in between --------------------------------------------------------------------------

  predicate Goes(cfg: Config, s: State, l: Label, v: State) { Steps(s, l) && Step(cfg, s, l) == v }

  /** One more for each task of the page with f. */
  function Counted(counts: seq<nat>, page: seq<nat>, f: nat -> bool): (r: seq<nat>)
    ensures |r| == |counts|
  {
    if page == [] then counts
    else
      var before, i := Counted(counts, page[..|page| - 1], f), page[|page| - 1];
      if i < |before| && f(i) then before[i := before[i] + 1] else before
  }

  const ALL: nat -> bool := (i: nat) => true

  function Not(issue: nat -> bool): nat -> bool { (i: nat) => !issue(i) }

  /** The pass with the first k tasks of its page behind it, at the next one. */
  function MidPass(cfg: Config, s: State, page: seq<nat>, k: nat, stage: Stage, issue: nat -> bool, now: int): State
    requires k <= |page|
  {
    s.(tasks := AfterPass(cfg, s.tasks, page[..k], issue, now), tries := Counted(s.tries, page[..k], ALL),
       fails := Counted(s.fails, page[..k], Not(issue)), pass := if k < |page| then Busy(page, k, stage) else Idle)
  }

  lemma NextTask(cfg: Config, s: State, page: seq<nat>, k: nat, issue: nat -> bool, now: int)
    requires k < |page| && page[k] < |s.tasks| == |s.tries| == |s.fails|
    ensures var i := page[k];
      && AfterPass(cfg, s.tasks, page[..k + 1], issue, now)
         == AfterPass(cfg, s.tasks, page[..k], issue, now)[i := Marked(cfg, AfterPass(cfg, s.tasks, page[..k], issue, now)[i], issue(i), now)]
      && Counted(s.tries, page[..k + 1], ALL)
         == Counted(s.tries, page[..k], ALL)[i := Counted(s.tries, page[..k], ALL)[i] + 1]
      && Counted(s.fails, page[..k + 1], Not(issue))
         == if issue(i) then Counted(s.fails, page[..k], Not(issue))
            else Counted(s.fails, page[..k], Not(issue))[i := Counted(s.fails, page[..k], Not(issue))[i] + 1]
  {
    assert page[..k + 1][..k] == page[..k];
  }

  /** From the middle of the pass: the task is issued, its row is read, and the mark is saved. */
  lemma TaskIsTried(cfg: Config, s: State, page: seq<nat>, k: nat, issue: nat -> bool, now: int) returns (u: State, v: State)
    requires k < |page| && page[k] < |s.tasks| == |s.tries| == |s.fails|
    ensures Goes(cfg, MidPass(cfg, s, page, k, Ready, issue, now), Issue(issue(page[k])), u)
    ensures Goes(cfg, u, LoadRow, v)
    ensures Goes(cfg, v, SaveRow(now, true), MidPass(cfg, s, page, k + 1, Ready, issue, now))
  {
    var w := MidPass(cfg, s, page, k, Ready, issue, now);
    NextTask(cfg, s, page, k, issue, now);
    u := Step(cfg, w, Issue(issue(page[k])));
    v := Step(cfg, u, LoadRow);
  }

  ghost predicate TaskGoes(cfg: Config, s: State, page: seq<nat>, k: nat, issue: nat -> bool, now: int)
    requires k < |page|
  {
    exists u, v :: Goes(cfg, MidPass(cfg, s, page, k, Ready, issue, now), Issue(issue(page[k])), u)
      && Goes(cfg, u, LoadRow, v) && Goes(cfg, v, SaveRow(now, true), MidPass(cfg, s, page, k + 1, Ready, issue, now))
  }

  /** From any state with no pass under way, the steps of one with nothing in between are those of the
      batch loop: it takes the first fifty due tasks by id, tries each once, in order, and leaves the
      tasks as the loop does. */
  lemma PassIsTheLoop(cfg: Config, s: State, issue: nat -> bool, now: int)
    requires s.pass.Idle? && |s.tasks| == |s.tries| == |s.fails|
    ensures var page := FirstWhere(IsDue(now), s.tasks, 50);
      && Goes(cfg, s, BeginPass(now), MidPass(cfg, s, page, 0, Ready, issue, now))
      && (forall k :: 0 <= k < |page| ==> TaskGoes(cfg, s, page, k, issue, now))
      && MidPass(cfg, s, page, |page|, Ready, issue, now).tasks == AfterPass(cfg, s.tasks, page, issue, now)
      && MidPass(cfg, s, page, |page|, Ready, issue, now).pass.Idle?
  {
    var page := FirstWhere(IsDue(now), s.tasks, 50);
    FirstWhereSelects(IsDue(now), s.tasks, 50);
    assert page[..0] == [] && page[..|page|] == page;
    forall k | 0 <= k < |page| ensures TaskGoes(cfg, s, page, k, issue, now) {
      var u, v := TaskIsTried(cfg, s, page, k, issue, now);
    }
  }

  /** And the steps of a schedule with nothing in between do what the service method does. */
  lemma ScheduleIsTheMethod(cfg: Config, s: State, orderNo: string, now: int) returns (u: State, v: State, w: State)
    ensures var k := |s.scheds|;
      Goes(cfg, s, StartSched(orderNo), u) && Goes(cfg, u, SchedRead(k), v) && Goes(cfg, v, SchedWrite(k, now), w)
    ensures w.tasks ==
      match FindTask(s.tasks, orderNo)
      case None => s.tasks + [NewTask(cfg, orderNo, now)]
      case Some(i) => s.tasks[i := Rescheduled(cfg, s.tasks[i], now)]
    ensures w.pass == s.pass
  {
    var k := |s.scheds|;
    u := Step(cfg, s, StartSched(orderNo));
    assert u.scheds[k] == Waiting(orderNo);
    v := Step(cfg, u, SchedRead(k));
    w := Step(cfg, v, SchedWrite(k, now));
  }

  // ---- what a retry count is worth --------------------------------------------------------------------------

  function InHand(s: State, i: nat): nat { if AtTask(s, i) && !s.pass.stage.Ready? then 1 else 0 }

  /** The retry count is the number of failed marks. */
  predicate CountAgrees(s: State, i: nat) {
    i < |s.tasks| == |s.fails| && s.tasks[i].retryCount == s.fails[i]
  }

  /** Every attempt is accounted for: by a failed mark, by the success, or by the pass at work on it. */
  predicate TriesAgree(s: State, i: nat) {
    && i < |s.tasks| == |s.fails| == |s.tries|
    && s.tries[i] == s.fails[i] + InHand(s, i) + if s.tasks[i].status == Success then 1 else 0
  }

  predicate LoadedAgrees(s: State, i: nat) {
    i < |s.tasks| && (AtTask(s, i) && s.pass.stage.Loaded? ==> s.pass.stage.row.retryCount == s.tasks[i].retryCount)
  }

  predicate Fair(s: State, i: nat) { CountAgrees(s, i) && TriesAgree(s, i) && LoadedAgrees(s, i) }

  /** The write-back of a pending copy whose retry count is not the stored one. */
  predicate ForgetsCount(s: State, l: Label, i: nat) {
    && l.SchedWrite? && LateFor(s, l.k, i) && i < |s.tasks|
    && s.scheds[l.k].copy.value.row.retryCount != s.tasks[i].retryCount
  }

  /** The pass dies with an attempt in hand or cannot save a failure; or a pending copy is written back
      over a success. */
  predicate LosesAttempt(s: State, l: Label, i: nat) {
    || (l.Die? && InHand(s, i) == 1)
    || (l.SaveRow? && !l.dbOk && s.pass.Busy? && s.pass.stage.Loaded? && !s.pass.stage.ok && AtTask(s, i))
    || (l.SchedWrite? && LateFor(s, l.k, i) && i < |s.tasks| && s.tasks[i].status == Success)
  }

  predicate Spoils(s: State, l: Label, i: nat) { ForgetsCount(s, l, i) || LosesAttempt(s, l, i) }

  lemma SchedStepFair(cfg: Config, s: State, l: Label, i: nat)
    requires Inv(s) && Steps(s, l) && i < |s.tasks| && Fair(s, i)
    requires l.StartSched? || l.SchedRead? || l.SchedWrite?
    ensures CountAgrees(Step(cfg, s, l), i) <==> !ForgetsCount(s, l, i)
    ensures TriesAgree(Step(cfg, s, l), i) <==> !LosesAttempt(s, l, i)
    ensures !Spoils(s, l, i) ==> LoadedAgrees(Step(cfg, s, l), i)
  {
  }

  lemma PassStepFair(cfg: Config, s: State, l: Label, i: nat)
    requires Inv(s) && Steps(s, l) && i < |s.tasks| && Fair(s, i)
    requires l.BeginPass? || l.Issue? || l.LoadRow? || l.Die?
    ensures CountAgrees(Step(cfg, s, l), i)
    ensures TriesAgree(Step(cfg, s, l), i) <==> !LosesAttempt(s, l, i)
    ensures LoadedAgrees(Step(cfg, s, l), i)
  {
  }

  lemma SaveStepFair(cfg: Config, s: State, l: Label, i: nat)
    requires Inv(s) && Steps(s, l) && i < |s.tasks| && Fair(s, i) && l.SaveRow?
    ensures CountAgrees(Step(cfg, s, l), i)
    ensures TriesAgree(Step(cfg, s, l), i) <==> !LosesAttempt(s, l, i)
    ensures LoadedAgrees(Step(cfg, s, l), i)
  {
  }

  /** In any state that is fair to task i: the next step leaves the retry count equal to the failed
      marks unless it writes back another count, and every attempt accounted for unless it loses one. */
  lemma WhatSpoilsTheCount(cfg: Config, s: State, l: Label, i: nat)
    requires Inv(s) && Steps(s, l) && i < |s.tasks| && Fair(s, i)
    ensures CountAgrees(Step(cfg, s, l), i) <==> !ForgetsCount(s, l, i)
    ensures TriesAgree(Step(cfg, s, l), i) <==> !LosesAttempt(s, l, i)
    ensures !Spoils(s, l, i) ==> Fair(Step(cfg, s, l), i)
  {
    if l.StartSched? || l.SchedRead? || l.SchedWrite? {
      SchedStepFair(cfg, s, l, i);
    } else if l.SaveRow? {
      SaveStepFair(cfg, s, l, i);
    } else {
      PassStepFair(cfg, s, l, i);
    }
  }

  /** How many steps of a run met one of the guards for task i. */
  function Spoilt(cfg: Config, ls: seq<Label>, i: nat): nat {
    if ls == [] then 0
    else
      var front, l := ls[..|ls| - 1], ls[|ls| - 1];
      Spoilt(cfg, front, i) + match Exec(cfg, front) case Some(s) => (if Spoils(s, l, i) then 1 else 0) case None => 0
  }

  /** Count and attempts of task i agree in every state of the run in which it exists. */
  predicate FairThroughout(cfg: Config, ls: seq<Label>, i: nat) {
    && Exec(cfg, ls).Some?
    && (i < |Exec(cfg, ls).value.tasks| ==> CountAgrees(Exec(cfg, ls).value, i) && TriesAgree(Exec(cfg, ls).value, i))
    && (ls != [] ==> FairThroughout(cfg, ls[..|ls| - 1], i))
  }

  lemma NewTaskIsFair(cfg: Config, s: State, l: Label, i: nat)
    requires Inv(s) && Steps(s, l) && |s.tasks| <= i < |Step(cfg, s, l).tasks|
    ensures Fair(Step(cfg, s, l), i) && !Spoils(s, l, i)
    ensures l.SchedWrite? && Step(cfg, s, l).tries[i] == 0 && !AtTask(Step(cfg, s, l), i)
    ensures Step(cfg, s, l).tasks[i].retryCount == 0
  {
  }

  /** The copies a schedule holds are of tasks that exist. */
  ghost predicate CopiesExist(s: State) {
    forall k :: 0 <= k < |s.scheds| && s.scheds[k].Holding? && s.scheds[k].copy.Some? ==>
      s.scheds[k].copy.value.id < |s.tasks|
  }

  lemma CopiesExistKept(cfg: Config, s: State, l: Label)
    requires CopiesExist(s) && Steps(s, l)
    ensures CopiesExist(Step(cfg, s, l)) && |s.tasks| <= |Step(cfg, s, l).tasks|
  {
  }

  lemma {:induction false} CopiesAlwaysExist(cfg: Config, ls: seq<Label>)
    requires Exec(cfg, ls).Some?
    ensures CopiesExist(Exec(cfg, ls).value)
  {
    if ls != [] {
      CopiesAlwaysExist(cfg, ls[..|ls| - 1]);
      CopiesExistKept(cfg, Exec(cfg, ls[..|ls| - 1]).value, ls[|ls| - 1]);
    }
  }

  lemma NothingToSpoil(s: State, l: Label, i: nat)
    requires Inv(s) && CopiesExist(s) && Steps(s, l) && i >= |s.tasks|
    ensures !Spoils(s, l, i)
  {
  }

  /** Over whole runs: retryCount is the number of failed retries, and every attempt accounted for, in
      every state exactly when no step met a guard. */
  lemma {:induction false} CountsAgreeExactlyWhen(cfg: Config, ls: seq<Label>, i: nat)
    requires Exec(cfg, ls).Some?
    ensures FairThroughout(cfg, ls, i) <==> Spoilt(cfg, ls, i) == 0
    ensures Spoilt(cfg, ls, i) == 0 && i < |Exec(cfg, ls).value.tasks| ==> Fair(Exec(cfg, ls).value, i)
  {
    if ls != [] {
      var front, l := ls[..|ls| - 1], ls[|ls| - 1];
      CountsAgreeExactlyWhen(cfg, front, i);
      var s := Exec(cfg, front).value;
      EveryRunKeeps(cfg, front);
      CopiesAlwaysExist(cfg, front);
      CopiesExistKept(cfg, s, l);
      if i >= |s.tasks| {
        NothingToSpoil(s, l, i);
        if i < |Step(cfg, s, l).tasks| { NewTaskIsFair(cfg, s, l, i); }
      } else if Spoilt(cfg, front, i) == 0 {
        WhatSpoilsTheCount(cfg, s, l, i);
      }
    }
  }

  // ---- how often a task is issued -----------------------------------------------------------------------------

  /** Pending rows, wherever they are, have retries left; a failed task has used all. */
  predicate Budgeted(cfg: Config, t: Task) {
    if t.status == Failed then t.retryCount == Max(cfg) else t.retryCount < Max(cfg)
  }

  ghost predicate AllBudgeted(cfg: Config, s: State) {
    && (forall i :: 0 <= i < |s.tasks| ==> Budgeted(cfg, s.tasks[i]))
    && (forall k :: 0 <= k < |s.scheds| && s.scheds[k].Holding? && s.scheds[k].copy.Some? ==>
          Budgeted(cfg, s.scheds[k].copy.value.row))
    && (s.pass.Busy? && s.pass.stage.Loaded? ==> Budgeted(cfg, s.pass.stage.row))
  }

  lemma BudgetKept(cfg: Config, s: State, l: Label)
    requires Inv(s) && AllBudgeted(cfg, s) && Steps(s, l)
    ensures AllBudgeted(cfg, Step(cfg, s, l))
  {
  }

  lemma {:induction false} BudgetHolds(cfg: Config, ls: seq<Label>)
    requires Exec(cfg, ls).Some?
    ensures AllBudgeted(cfg, Exec(cfg, ls).value)
  {
    if ls != [] {
      BudgetHolds(cfg, ls[..|ls| - 1]);
      EveryRunKeeps(cfg, ls[..|ls| - 1]);
      BudgetKept(cfg, Exec(cfg, ls[..|ls| - 1]).value, ls[|ls| - 1]);
    }
  }

  /** The most retries task i can still see: of the stored row, or of the one a pass is about to save. */
  function Left(cfg: Config, s: State, i: nat): int
    requires i < |s.tasks|
  {
    var stored := Budget(cfg, s.tasks[i]);
    if AtTask(s, i) && s.pass.stage.Loaded? && Budget(cfg, s.pass.stage.row) > stored
    then Budget(cfg, s.pass.stage.row) else stored
  }

  ghost predicate Bounded(cfg: Config, s: State, i: nat, bound: int) {
    i < |s.tasks| == |s.tries| && s.tries[i] - InHand(s, i) + Left(cfg, s, i) <= bound
  }

  lemma SchedStepBounded(cfg: Config, s: State, l: Label, i: nat, bound: int)
    requires Inv(s) && AllBudgeted(cfg, s) && Steps(s, l) && i < |s.tasks| && Bounded(cfg, s, i, bound)
    requires l.StartSched? || l.SchedRead? || l.SchedWrite?
    ensures Bounded(cfg, Step(cfg, s, l), i, if Spoils(s, l, i) then bound + Max(cfg) else bound)
  {
    if l.SchedWrite? && LateFor(s, l.k, i) {
      assert Budgeted(cfg, s.scheds[l.k].copy.value.row) && Budgeted(cfg, s.tasks[i]);
    }
  }

  lemma PassStepBounded(cfg: Config, s: State, l: Label, i: nat, bound: int)
    requires Inv(s) && AllBudgeted(cfg, s) && Steps(s, l) && i < |s.tasks| && Bounded(cfg, s, i, bound)
    requires l.BeginPass? || l.Issue? || l.LoadRow? || l.SaveRow? || l.Die?
    ensures Bounded(cfg, Step(cfg, s, l), i, if Spoils(s, l, i) then bound + Max(cfg) else bound)
  {
    assert Budgeted(cfg, s.tasks[i]);
  }

  /** max, and as much again n times: max * (1 + n). */
  function Allowance(max: nat, n: nat): int { if n == 0 then max else Allowance(max, n - 1) + max }

  lemma {:induction false} AllowanceIs(max: nat, n: nat)
    ensures Allowance(max, n) == max * (1 + n) && max <= Allowance(max, n)
  {
    if n > 0 {
      AllowanceIs(max, n - 1);
      assert max * (1 + n) == max * (1 + (n - 1)) + max;
    }
  }

  lemma StepBounded(cfg: Config, s: State, l: Label, i: nat, n: nat)
    requires Inv(s) && AllBudgeted(cfg, s) && Steps(s, l) && i < |s.tasks| && Bounded(cfg, s, i, Allowance(Max(cfg), n))
    ensures Bounded(cfg, Step(cfg, s, l), i, Allowance(Max(cfg), if Spoils(s, l, i) then n + 1 else n))
  {
    if l.StartSched? || l.SchedRead? || l.SchedWrite? {
      SchedStepBounded(cfg, s, l, i, Allowance(Max(cfg), n));
    } else {
      PassStepBounded(cfg, s, l, i, Allowance(Max(cfg), n));
    }
  }

  lemma NewTaskBounded(cfg: Config, s: State, l: Label, i: nat, n: nat)
    requires Inv(s) && Steps(s, l) && |s.tasks| <= i < |Step(cfg, s, l).tasks|
    ensures Bounded(cfg, Step(cfg, s, l), i, Allowance(Max(cfg), n))
  {
    NewTaskIsFair(cfg, s, l, i);
    AllowanceIs(Max(cfg), n);
  }

  lemma {:induction false} BoundHolds(cfg: Config, ls: seq<Label>, i: nat)
    requires Exec(cfg, ls).Some? && i < |Exec(cfg, ls).value.tasks|
    ensures Bounded(cfg, Exec(cfg, ls).value, i, Allowance(Max(cfg), Spoilt(cfg, ls, i)))
  {
    var front, l := ls[..|ls| - 1], ls[|ls| - 1];
    var s := Exec(cfg, front).value;
    EveryRunKeeps(cfg, front);
    if i < |s.tasks| {
      BoundHolds(cfg, front, i);
      BudgetHolds(cfg, front);
      StepBounded(cfg, s, l, i, Spoilt(cfg, front, i));
    } else {
      NewTaskBounded(cfg, s, l, i, Spoilt(cfg, ls, i));
    }
  }

  /** A pass at work on a task, or one with retries left, has a retry to spend on it. */
  lemma InHandHasRetries(cfg: Config, s: State, i: nat)
    requires Inv(s) && AllBudgeted(cfg, s) && i < |s.tasks|
    ensures InHand(s, i) <= Left(cfg, s, i)
  {
    assert Budgeted(cfg, s.tasks[i]);
  }

  lemma BoundedTries(cfg: Config, s: State, i: nat, bound: int)
    requires Inv(s) && AllBudgeted(cfg, s) && Bounded(cfg, s, i, bound)
    ensures s.tries[i] <= bound
  {
    InHandHasRetries(cfg, s, i);
  }

  lemma TriesBound(cfg: Config, ls: seq<Label>, i: nat)
    requires Exec(cfg, ls).Some? && i < |Exec(cfg, ls).value.tasks|
    ensures i < |Exec(cfg, ls).value.tries|
    ensures Exec(cfg, ls).value.tries[i] <= Allowance(Max(cfg), Spoilt(cfg, ls, i))
  {
    EveryRunKeeps(cfg, ls);
    BudgetHolds(cfg, ls);
    BoundHolds(cfg, ls, i);
    BoundedTries(cfg, Exec(cfg, ls).value, i, Allowance(Max(cfg), Spoilt(cfg, ls, i)));
  }

  /** For every run: a task is issued at most max(maxRetries, 1) times, and as often again for each step
      that met a guard. Without such a step its retry count is the number of its failed retries, and it is
      issued at most max(maxRetries, 1) times, schedules interleaved at will and passes dying between tasks. */
  lemma RetriesAreBounded(cfg: Config, ls: seq<Label>, i: nat)
    requires Exec(cfg, ls).Some? && i < |Exec(cfg, ls).value.tasks|
    ensures i < |Exec(cfg, ls).value.tries|
    ensures Exec(cfg, ls).value.tries[i] <= Allowance(Max(cfg), Spoilt(cfg, ls, i))
    ensures Spoilt(cfg, ls, i) == 0 ==> Exec(cfg, ls).value.tries[i] <= Max(cfg) && CountAgrees(Exec(cfg, ls).value, i)
  {
    TriesBound(cfg, ls, i);
    CountsAgreeExactlyWhen(cfg, ls, i);
  }

  // ---- runs that do spoil it -----------------------------------------------------------------------------------

  lemma Ran(cfg: Config, ls: seq<Label>, s: State, l: Label, v: State) returns (ms: seq<Label>)
    requires Exec(cfg, ls) == Some(s) && Steps(s, l) && Step(cfg, s, l) == v
    ensures Exec(cfg, ms) == Some(v)
  {
    ms := ls + [l];
    assert ms[..|ls|] == ls;
  }

  const CFG := Config(2, 30)
  const T := Task("O", Pending, 0, 30)
  const LATE := Holding("O", Some(Copy(0, T)))

  /** One task, and a second schedule for it. */
  function Scene(t: Task, second: Sched, pass: Pass, tries: nat, fails: nat): State {
    State([t], [Done, second], pass, [tries], [fails])
  }

  lemma SecondScheduleReads() returns (ls: seq<Label>)
    ensures Exec(CFG, ls) == Some(Scene(T, LATE, Idle, 0, 0))
  {
    var s1 := START.(scheds := [Waiting("O")]);
    var s2 := START.(scheds := [Holding("O", None)]);
    var s3 := State([T], [Done], Idle, [0], [0]);
    ls := Ran(CFG, [], START, StartSched("O"), s1);
    ls := Ran(CFG, ls, s1, SchedRead(0), s2);
    ls := Ran(CFG, ls, s2, SchedWrite(0, 0), s3);
    ls := Ran(CFG, ls, s3, StartSched("O"), Scene(T, Waiting("O"), Idle, 0, 0));
    ls := Ran(CFG, ls, Scene(T, Waiting("O"), Idle, 0, 0), SchedRead(1), Scene(T, LATE, Idle, 0, 0));
  }

  lemma IssueSteps(t: Task, second: Sched, tries: nat, fails: nat, ok: bool, now: int)
    requires t.status == Pending && t.nextRetry <= now
    ensures var s1, s2 := Scene(t, second, Idle, tries, fails), Scene(t, second, Busy([0], 0, Ready), tries, fails);
      && Steps(s1, BeginPass(now)) && Step(CFG, s1, BeginPass(now)) == s2
      && Steps(s2, Issue(ok)) && Step(CFG, s2, Issue(ok)) == Scene(t, second, Busy([0], 0, Called(ok)), tries + 1, fails)
  {
    assert [t][..0] == [];
    assert FirstWhere(IsDue(now), [t], 50) == [0];
  }

  lemma MarkSteps(t: Task, second: Sched, tries: nat, fails: nat, ok: bool, now: int)
    ensures var s3, s4 := Scene(t, second, Busy([0], 0, Called(ok)), tries, fails), Scene(t, second, Busy([0], 0, Loaded(ok, t)), tries, fails);
      && Steps(s3, LoadRow) && Step(CFG, s3, LoadRow) == s4
      && Steps(s4, SaveRow(now, true))
      && Step(CFG, s4, SaveRow(now, true)) == Scene(Marked(CFG, t, ok, now), second, Idle, tries, if ok then fails else fails + 1)
  {
  }

  /** A pass over the one task, when it is due. */
  lemma WholePass(ls: seq<Label>, t: Task, u: Task, second: Sched, tries: nat, fails: nat, ok: bool, now: int)
    returns (ms: seq<Label>)
    requires Exec(CFG, ls) == Some(Scene(t, second, Idle, tries, fails)) && t.status == Pending && t.nextRetry <= now
    requires u == Marked(CFG, t, ok, now)
    ensures Exec(CFG, ms) == Some(Scene(u, second, Idle, tries + 1, if ok then fails else fails + 1))
  {
    IssueSteps(t, second, tries, fails, ok, now);
    MarkSteps(t, second, tries + 1, fails, ok, now);
    var s1, s2 := Scene(t, second, Idle, tries, fails), Scene(t, second, Busy([0], 0, Ready), tries, fails);
    var s3, s4 := Scene(t, second, Busy([0], 0, Called(ok)), tries + 1, fails), Scene(t, second, Busy([0], 0, Loaded(ok, t)), tries + 1, fails);
    ms := Ran(CFG, ls, s1, BeginPass(now), s2);
    ms := Ran(CFG, ms, s2, Issue(ok), s3);
    ms := Ran(CFG, ms, s3, LoadRow, s4);
    ms := Ran(CFG, ms, s4, SaveRow(now, true), Scene(u, second, Idle, tries + 1, if ok then fails else fails + 1));
  }

  lemma LateWrite(ls: seq<Label>, t: Task, tries: nat, fails: nat, now: int) returns (ms: seq<Label>)
    requires Exec(CFG, ls) == Some(Scene(t, LATE, Idle, tries, fails))
    ensures Exec(CFG, ms) == Some(Scene(T.(nextRetry := now + 30), Done, Idle, tries, fails))
  {
    var s := Scene(t, LATE, Idle, tries, fails);
    assert s.scheds[1 := Done] == [Done, Done];
    ms := Ran(CFG, ls, s, SchedWrite(1, now), Scene(T.(nextRetry := now + 30), Done, Idle, tries, fails));
  }

  /** A schedule that read the pending task, then a pass that issues the coupon and marks SUCCESS, then
      the schedule's write: the task is pending again, and the next pass issues the coupon once more. */
  lemma LateScheduleReopens() returns (ls: seq<Label>, ms: seq<Label>)
    ensures Exec(CFG, ls) == Some(Scene(T.(status := Success), LATE, Idle, 1, 0))
    ensures Exec(CFG, ms) == Some(Scene(T.(nextRetry := 61), Done, Idle, 1, 0))
  {
    ls := SecondScheduleReads();
    ls := WholePass(ls, T, T.(status := Success), LATE, 0, 0, true, 30);
    ms := LateWrite(ls, T.(status := Success), 1, 0, 31);
  }

  lemma CouponIsIssuedTwice() returns (ls: seq<Label>)
    ensures Exec(CFG, ls) == Some(Scene(T.(nextRetry := 61, status := Success), Done, Idle, 2, 0))
  {
    var before;
    before, ls := LateScheduleReopens();
    ls := WholePass(ls, T.(nextRetry := 61), T.(nextRetry := 61, status := Success), Done, 1, 0, true, 61);
  }

  lemma FailuresAreMarked()
    ensures Marked(CFG, T, false, 30) == T.(retryCount := 1, nextRetry := 60)
    ensures Marked(CFG, T.(nextRetry := 61), false, 61) == T.(retryCount := 1, nextRetry := 91)
    ensures Marked(CFG, T.(retryCount := 1, nextRetry := 91), false, 91) == Task("O", Failed, 2, 91)
  {
  }

  lemma FirstRetryFails() returns (ls: seq<Label>)
    ensures Exec(CFG, ls) == Some(Scene(T.(retryCount := 1, nextRetry := 60), LATE, Idle, 1, 1))
  {
    FailuresAreMarked();
    ls := SecondScheduleReads();
    ls := WholePass(ls, T, T.(retryCount := 1, nextRetry := 60), LATE, 0, 0, false, 30);
  }

  /** The same with a pass that fails: the task is never finished, yet its count falls back from 1 to 0
      while one retry has failed. */
  lemma LateScheduleForgets() returns (ls: seq<Label>)
    ensures Exec(CFG, ls) == Some(Scene(T.(nextRetry := 61), Done, Idle, 1, 1))
    ensures !CountAgrees(Scene(T.(nextRetry := 61), Done, Idle, 1, 1), 0)
  {
    ls := FirstRetryFails();
    ls := LateWrite(ls, T.(retryCount := 1, nextRetry := 60), 1, 1, 31);
  }

  /** And two more failures later the task has been issued three times where two is the limit. */
  lemma TriesExceedTheLimit() returns (ls: seq<Label>)
    ensures Max(CFG) == 2
    ensures Exec(CFG, ls) == Some(Scene(Task("O", Failed, 2, 91), Done, Idle, 3, 3))
  {
    FailuresAreMarked();
    ls := LateScheduleForgets();
    ls := WholePass(ls, T.(nextRetry := 61), T.(retryCount := 1, nextRetry := 91), Done, 1, 1, false, 61);
    ls := WholePass(ls, T.(retryCount := 1, nextRetry := 91), Task("O", Failed, 2, 91), Done, 2, 2, false, 91);
  }

  /** A pass that dies with the attempt in hand loses it, too. */
  lemma DyingPassLosesAttempt() returns (ls: seq<Label>)
    ensures Exec(CFG, ls) == Some(Scene(T, LATE, Idle, 1, 0)) && !TriesAgree(Exec(CFG, ls).value, 0)
  {
    ls := SecondScheduleReads();
    IssueSteps(T, LATE, 0, 0, false, 30);
    ls := Ran(CFG, ls, Scene(T, LATE, Idle, 0, 0), BeginPass(30), Scene(T, LATE, Busy([0], 0, Ready), 0, 0));
    ls := Ran(CFG, ls, Scene(T, LATE, Busy([0], 0, Ready), 0, 0), Issue(false), Scene(T, LATE, Busy([0], 0, Called(false)), 1, 0));
    ls := Ran(CFG, ls, Scene(T, LATE, Busy([0], 0, Called(false)), 1, 0), Die, Scene(T, LATE, Idle, 1, 0));
  }
}
