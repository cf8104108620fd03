/** The external-call guard: a fair semaphore with a timeout in front of a bounded thread pool. A
    synchronous call takes its permit first and waits for the pool while holding it; an asynchronous
    one gets a pool thread first and waits for a permit while holding that. */
module CallGuard {
  import opened Options
  import opened Sums
  import opened Paging

  /** core and limit: smallest and largest number of pool threads. */
  datatype Config = Config(permits: nat, core: nat, limit: nat, capacity: nat)

  predicate Sane(cfg: Config) { 1 <= cfg.permits && 1 <= cfg.core <= cfg.limit }

  datatype Ending = Succeeded | Failed | Rejected | Dropped

  datatype Phase =
    | SyncAsking | SyncPermitted | SyncQueued | SyncRunning | SyncReturning(ok: bool)
    | AsyncQueued | AsyncAsking | AsyncRunning | AsyncReturning(ok: bool)
    | Over(how: Ending)

  datatype State = State(
    free: int,
    calls: seq<Phase>,
    submitted: nat,
    succeeded: nat,
    failed: nat,
    rejected: nat)

  datatype Label =
    | CallSync
    | CallAsync(accepted: bool)
    | Acquire(c: nat)
    | Timeout(c: nat)
    | Interrupt(c: nat)
    | Submit(c: nat, accepted: bool)
    | Begin(c: nat)
    | Finish(c: nat, ok: bool)
    | Release(c: nat)

  predicate Asks(p: Phase) { p.SyncAsking? || p.AsyncAsking? }
  predicate Queues(p: Phase) { p.SyncQueued? || p.AsyncQueued? }
  predicate Runs(p: Phase) { p.SyncRunning? || p.AsyncRunning? }
  predicate Returns(p: Phase) { p.SyncReturning? || p.AsyncReturning? }
  predicate OnThread(p: Phase) { p.SyncRunning? || p.AsyncAsking? || p.AsyncRunning? || p.AsyncReturning? }
  predicate HoldsPermit(p: Phase) { p.SyncPermitted? || p.SyncQueued? || Runs(p) || Returns(p) }
  predicate CountsSuccess(p: Phase) { p == Over(Succeeded) || (Returns(p) && p.ok) }
  predicate CountsFailure(p: Phase) { p == Over(Failed) || (Returns(p) && !p.ok) }
  predicate CountsRejection(p: Phase) { p == Over(Rejected) }
  predicate IsOver(p: Phase) { p.Over? }

  function Busy(s: State): nat { Count(OnThread, s.calls) }

  /** A task that the executor refuses found the queue full. A queued one may start on any thread up
      to the limit. */
  predicate Steps(cfg: Config, s: State, l: Label) {
    match l
    case CallSync => true
    case CallAsync(accepted) => accepted || Count(Queues, s.calls) >= cfg.capacity
    case Acquire(c) => c < |s.calls| && Asks(s.calls[c]) && s.free > 0
    case Timeout(c) => c < |s.calls| && Asks(s.calls[c])
    case Interrupt(c) => c < |s.calls| && Asks(s.calls[c])
    case Submit(c, accepted) =>
      && c < |s.calls| && s.calls[c].SyncPermitted?
      && (accepted || Count(Queues, s.calls) >= cfg.capacity)
    case Begin(c) => c < |s.calls| && Queues(s.calls[c]) && Busy(s) < cfg.limit
    case Finish(c, _) => c < |s.calls| && Runs(s.calls[c])
    case Release(c) => c < |s.calls| && Returns(s.calls[c])
  }

  function Set(s: State, c: nat, p: Phase): State
    requires c < |s.calls|
  {
    s.(calls := s.calls[c := p])
  }

  function Counted(s: State, ok: bool): State {
    if ok then s.(succeeded := s.succeeded + 1) else s.(failed := s.failed + 1)
  }

  function Step(cfg: Config, s: State, l: Label): State
    requires Steps(cfg, s, l)
  {
    match l
    case CallSync => s.(calls := s.calls + [SyncAsking], submitted := s.submitted + 1)
    case CallAsync(accepted) =>
      s.(calls := s.calls + [if accepted then AsyncQueued else Over(Dropped)], submitted := s.submitted + 1)
    case Acquire(c) =>
      Set(s, c, if s.calls[c].SyncAsking? then SyncPermitted else AsyncRunning).(free := s.free - 1)
    case Timeout(c) => Set(s, c, Over(Rejected)).(rejected := s.rejected + 1)
    case Interrupt(c) => Set(s, c, Over(Dropped))
    case Submit(c, accepted) =>
      if accepted then Set(s, c, SyncQueued) else Counted(Set(s, c, SyncReturning(false)), false)
    case Begin(c) => Set(s, c, if s.calls[c].SyncQueued? then SyncRunning else AsyncAsking)
    case Finish(c, ok) =>
      Counted(Set(s, c, if s.calls[c].SyncRunning? then SyncReturning(ok) else AsyncReturning(ok)), ok)
    case Release(c) =>
      Set(s, c, Over(if s.calls[c].ok then Succeeded else Failed)).(free := s.free + 1)
  }

  function Start(cfg: Config): State { State(cfg.permits, [], 0, 0, 0, 0) }

  function Exec(cfg: Config, s: State, ls: seq<Label>): Option<State> {
    if ls == [] then Some(s)
    else
      match Exec(cfg, s, ls[..|ls| - 1])
      case Some(v) => if Steps(cfg, v, ls[|ls| - 1]) then Some(Step(cfg, v, ls[|ls| - 1])) else None
      case None => None
  }

  // ---- safety -----------------------------------------------------------------------------------------

  ghost predicate Inv(cfg: Config, s: State) {
    && s.free >= 0 && s.free + Count(HoldsPermit, s.calls) == cfg.permits
    && Busy(s) <= cfg.limit
    && s.submitted == |s.calls|
    && s.succeeded == Count(CountsSuccess, s.calls)
    && s.failed == Count(CountsFailure, s.calls)
    && s.rejected == Count(CountsRejection, s.calls)
  }

  function One(b: bool): int { if b then 1 else 0 }

  lemma OneCall(s: State, c: nat, p: Phase)
    requires c < |s.calls|
    ensures var was := s.calls[c]; var calls := s.calls[c := p];
      && Count(HoldsPermit, calls) == Count(HoldsPermit, s.calls) - One(HoldsPermit(was)) + One(HoldsPermit(p))
      && Count(OnThread, calls) == Count(OnThread, s.calls) - One(OnThread(was)) + One(OnThread(p))
      && Count(CountsSuccess, calls) == Count(CountsSuccess, s.calls) - One(CountsSuccess(was)) + One(CountsSuccess(p))
      && Count(CountsFailure, calls) == Count(CountsFailure, s.calls) - One(CountsFailure(was)) + One(CountsFailure(p))
      && Count(CountsRejection, calls) == Count(CountsRejection, s.calls) - One(CountsRejection(was)) + One(CountsRejection(p))
  {
    CountUpdate(HoldsPermit, s.calls, c, p);
    CountUpdate(OnThread, s.calls, c, p);
    CountUpdate(CountsSuccess, s.calls, c, p);
    CountUpdate(CountsFailure, s.calls, c, p);
    CountUpdate(CountsRejection, s.calls, c, p);
  }

  lemma NewCall(s: State, p: Phase)
    ensures var calls := s.calls + [p];
      && Count(HoldsPermit, calls) == Count(HoldsPermit, s.calls) + One(HoldsPermit(p))
      && Count(OnThread, calls) == Count(OnThread, s.calls) + One(OnThread(p))
      && Count(CountsSuccess, calls) == Count(CountsSuccess, s.calls) + One(CountsSuccess(p))
      && Count(CountsFailure, calls) == Count(CountsFailure, s.calls) + One(CountsFailure(p))
      && Count(CountsRejection, calls) == Count(CountsRejection, s.calls) + One(CountsRejection(p))
  {
    CountAppend(HoldsPermit, s.calls, p);
    CountAppend(OnThread, s.calls, p);
    CountAppend(CountsSuccess, s.calls, p);
    CountAppend(CountsFailure, s.calls, p);
    CountAppend(CountsRejection, s.calls, p);
  }

  lemma AskingStepKeeps(cfg: Config, s: State, l: Label)
    requires Inv(cfg, s) && Steps(cfg, s, l) && (l.Acquire? || l.Timeout? || l.Interrupt?)
    ensures Inv(cfg, Step(cfg, s, l))
  {
    OneCall(s, l.c, Step(cfg, s, l).calls[l.c]);
    CountZero(HoldsPermit, s.calls);
  }

  lemma PoolStepKeeps(cfg: Config, s: State, l: Label)
    requires Inv(cfg, s) && Steps(cfg, s, l) && (l.Submit? || l.Begin?)
    ensures Inv(cfg, Step(cfg, s, l))
  {
    OneCall(s, l.c, Step(cfg, s, l).calls[l.c]);
  }

  lemma EndingStepKeeps(cfg: Config, s: State, l: Label)
    requires Inv(cfg, s) && Steps(cfg, s, l) && (l.Finish? || l.Release?)
    ensures Inv(cfg, Step(cfg, s, l))
  {
    OneCall(s, l.c, Step(cfg, s, l).calls[l.c]);
  }

  lemma NewCallKeeps(cfg: Config, s: State, l: Label)
    requires Inv(cfg, s) && Steps(cfg, s, l) && (l.CallSync? || l.CallAsync?)
    ensures Inv(cfg, Step(cfg, s, l))
  {
    var p := if l.CallSync? then SyncAsking else if l.accepted then AsyncQueued else Over(Dropped);
    NewCall(s, p);
    assert Step(cfg, s, l) == s.(calls := s.calls + [p], submitted := s.submitted + 1);
  }

  lemma StepKeeps(cfg: Config, s: State, l: Label)
    requires Inv(cfg, s) && Steps(cfg, s, l)
    ensures Inv(cfg, Step(cfg, s, l))
  {
    if l.CallSync? || l.CallAsync? {
      NewCallKeeps(cfg, s, l);
    } else if l.Acquire? || l.Timeout? || l.Interrupt? {
      AskingStepKeeps(cfg, s, l);
    } else if l.Submit? || l.Begin? {
      PoolStepKeeps(cfg, s, l);
    } else {
      EndingStepKeeps(cfg, s, l);
    }
  }

  lemma {:induction false} EveryRunKeeps(cfg: Config, ls: seq<Label>)
    requires Exec(cfg, Start(cfg), ls).Some?
    ensures Inv(cfg, Exec(cfg, Start(cfg), ls).value)
  {
    if ls != [] {
      EveryRunKeeps(cfg, ls[..|ls| - 1]);
      StepKeeps(cfg, Exec(cfg, Start(cfg), ls[..|ls| - 1]).value, ls[|ls| - 1]);
    }
  }

  predicate Unfinished(p: Phase) {
    !CountsSuccess(p) && !CountsFailure(p) && !CountsRejection(p) && p != Over(Dropped)
  }

  predicate IsDropped(p: Phase) { p == Over(Dropped) }

  lemma {:induction false} CallsSplit(calls: seq<Phase>)
    ensures |calls| == Count(CountsSuccess, calls) + Count(CountsFailure, calls) + Count(CountsRejection, calls)
      + Count(IsDropped, calls) + Count(Unfinished, calls)
  {
    if calls != [] { CallsSplit(calls[..|calls| - 1]); }
  }

  /** In every interleaving: permits are neither lost nor minted, the external calls in progress never
      outnumber them, and every call submitted is counted once, unless interrupted or turned away. */
  lemma GuardIsSafe(cfg: Config, ls: seq<Label>)
    requires Exec(cfg, Start(cfg), ls).Some?
    ensures var s := Exec(cfg, Start(cfg), ls).value;
      && 0 <= s.free && s.free + Count(HoldsPermit, s.calls) == cfg.permits
      && Count(Runs, s.calls) <= cfg.permits && Busy(s) <= cfg.limit
      && s.submitted == s.succeeded + s.failed + s.rejected + Count(IsDropped, s.calls) + Count(Unfinished, s.calls)
  {
    EveryRunKeeps(cfg, ls);
    var s := Exec(cfg, Start(cfg), ls).value;
    CountWithin(Runs, HoldsPermit, s.calls);
    CallsSplit(s.calls);
  }

  // ---- every call ends as it ran -----------------------------------------------------------------------

  /** What the steps of a run say of call c: it returned, well or not, or its task was turned away; it gave
      up waiting; or it was interrupted or never accepted. */
  ghost predicate PhaseFits(ls: seq<Label>, c: nat, p: Phase) {
    && (CountsSuccess(p) <==> Finish(c, true) in ls)
    && (CountsFailure(p) <==> Finish(c, false) in ls || Submit(c, false) in ls)
    && (CountsRejection(p) <==> Timeout(c) in ls)
    && (p.Over? && (p.how == Succeeded || p.how == Failed) ==> Release(c) in ls)
    && (Interrupt(c) in ls ==> p == Over(Dropped))
  }

  predicate Touches(l: Label) { !l.CallSync? && !l.CallAsync? }

  ghost predicate AllFit(ls: seq<Label>, s: State) {
    && (forall c :: 0 <= c < |s.calls| ==> PhaseFits(ls, c, s.calls[c]))
    && (forall i :: 0 <= i < |ls| && Touches(ls[i]) ==> ls[i].c < |s.calls|)
  }

  lemma OwnStepFits(cfg: Config, ls: seq<Label>, s: State, l: Label)
    requires Steps(cfg, s, l) && Touches(l) && PhaseFits(ls, l.c, s.calls[l.c])
    ensures PhaseFits(ls + [l], l.c, Step(cfg, s, l).calls[l.c])
  {
  }

  lemma OtherStepFits(ls: seq<Label>, l: Label, c: nat, p: Phase)
    requires PhaseFits(ls, c, p) && (Touches(l) ==> l.c != c)
    ensures PhaseFits(ls + [l], c, p)
  {
  }

  lemma NewCallFits(ls: seq<Label>, s: State, p: Phase)
    requires AllFit(ls, s) && (p == SyncAsking || p == AsyncQueued || p == Over(Dropped))
    ensures PhaseFits(ls, |s.calls|, p)
  {
    forall l | l in ls && Touches(l) ensures l.c != |s.calls| {
      var i :| 0 <= i < |ls| && ls[i] == l;
    }
  }

  lemma StepFits(cfg: Config, ls: seq<Label>, s: State, l: Label)
    requires AllFit(ls, s) && Steps(cfg, s, l)
    ensures AllFit(ls + [l], Step(cfg, s, l))
  {
    var v := Step(cfg, s, l);
    forall c | 0 <= c < |v.calls| ensures PhaseFits(ls + [l], c, v.calls[c]) {
      if Touches(l) && c == l.c {
        OwnStepFits(cfg, ls, s, l);
      } else if c < |s.calls| {
        assert v.calls[c] == s.calls[c];
        OtherStepFits(ls, l, c, s.calls[c]);
      } else {
        NewCallFits(ls, s, v.calls[c]);
        OtherStepFits(ls, l, c, v.calls[c]);
      }
    }
  }

  /** In every run: a call counts as succeeded exactly when it returned well, as failed exactly when it
      returned otherwise or its task was turned away, as rejected exactly when its wait timed out. */
  lemma {:induction false} EndsAsItRan(cfg: Config, ls: seq<Label>)
    requires Exec(cfg, Start(cfg), ls).Some?
    ensures AllFit(ls, Exec(cfg, Start(cfg), ls).value)
  {
    if ls != [] {
      var front, l := ls[..|ls| - 1], ls[|ls| - 1];
      assert ls == front + [l];
      EndsAsItRan(cfg, front);
      StepFits(cfg, front, Exec(cfg, Start(cfg), front).value, l);
    }
  }

  // ---- progress ------------------------------------------------------------------------------------------

  /** How many more steps a call can take. */
  function Rank(p: Phase): int {
    match p
    case SyncAsking => 5
    case SyncPermitted => 4
    case SyncQueued => 3
    case SyncRunning => 2
    case SyncReturning(_) => 1
    case AsyncQueued => 4
    case AsyncAsking => 3
    case AsyncRunning => 2
    case AsyncReturning(_) => 1
    case Over(_) => 0
  }

  ghost function RankOf(): Phase -> int { (p: Phase) => Rank(p) }
  ghost function Work(s: State): int { SumBy(RankOf(), s.calls) }

  lemma StepUsesWork(cfg: Config, s: State, l: Label)
    requires Steps(cfg, s, l) && !l.CallSync? && !l.CallAsync?
    ensures Work(Step(cfg, s, l)) < Work(s)
  {
    SumUpdate(RankOf(), s.calls, l.c, Step(cfg, s, l).calls[l.c]);
  }

  /** With no new calls, every run is finite: each step uses up work. */
  lemma {:induction false} WorkRunsOut(cfg: Config, s: State, ls: seq<Label>)
    requires Exec(cfg, s, ls).Some?
    requires forall i :: 0 <= i < |ls| ==> !ls[i].CallSync? && !ls[i].CallAsync?
    ensures |ls| + Work(Exec(cfg, s, ls).value) <= Work(s)
  {
    if ls != [] {
      var front, l := ls[..|ls| - 1], ls[|ls| - 1];
      WorkRunsOut(cfg, s, front);
      assert !l.CallSync? && !l.CallAsync?;
      StepUsesWork(cfg, Exec(cfg, s, front).value, l);
    }
  }

  /** Steps that are bound to come: external calls return, waits for a permit time out, and while
      fewer than the core threads are busy an idle one takes the next task. */
  predicate Sure(cfg: Config, s: State, l: Label) {
    Steps(cfg, s, l) && (l.Timeout? || l.Submit? || l.Finish? || l.Release? || (l.Begin? && Busy(s) < cfg.core))
  }

  lemma NextOf(cfg: Config, s: State, c: nat) returns (l: Label)
    requires c < |s.calls| && !IsOver(s.calls[c]) && !Queues(s.calls[c])
    ensures Sure(cfg, s, l)
  {
    if Asks(s.calls[c]) {
      l := Timeout(c);
    } else if s.calls[c].SyncPermitted? {
      l := Submit(c, Count(Queues, s.calls) < cfg.capacity);
    } else if Runs(s.calls[c]) {
      l := Finish(c, true);
    } else {
      l := Release(c);
    }
  }

  /** No state with an unfinished call is stuck, although sync callers hold permits while they queue
      and async tasks hold threads while they wait for permits. */
  lemma NeverStuck(cfg: Config, s: State, c: nat) returns (l: Label)
    requires Sane(cfg) && c < |s.calls| && !IsOver(s.calls[c])
    ensures Sure(cfg, s, l)
  {
    if !Queues(s.calls[c]) {
      l := NextOf(cfg, s, c);
    } else if Busy(s) < cfg.core {
      l := Begin(c);
    } else {
      CountZero(OnThread, s.calls);
      var d :| 0 <= d < |s.calls| && OnThread(s.calls[d]);
      l := NextOf(cfg, s, d);
    }
  }

  /** Every step of the run is sure in the state in which it is taken. */
  predicate SureRun(cfg: Config, s: State, ls: seq<Label>)
    decreases |ls|
  {
    ls != [] ==> Sure(cfg, s, ls[0]) && SureRun(cfg, Step(cfg, s, ls[0]), ls[1..])
  }

  lemma {:induction false} ExecFirst(cfg: Config, s: State, l: Label, ms: seq<Label>)
    requires Steps(cfg, s, l)
    ensures Exec(cfg, s, [l] + ms) == Exec(cfg, Step(cfg, s, l), ms)
  {
    if ms == [] {
      assert [l] + ms == [l] && [l][..0] == [];
    } else {
      assert ([l] + ms)[..|ms|] == [l] + ms[..|ms| - 1];
      ExecFirst(cfg, s, l, ms[..|ms| - 1]);
    }
  }

  /** So the guard always drains: sure steps alone lead from any state to one where every call is
      over, in no more steps than there is work. */
  lemma Drains(cfg: Config, s: State) returns (ls: seq<Label>, v: State)
    requires Sane(cfg)
    ensures Exec(cfg, s, ls) == Some(v) && SureRun(cfg, s, ls) && |ls| <= Work(s)
    ensures forall c :: 0 <= c < |v.calls| ==> IsOver(v.calls[c])
    decreases Work(s)
  {
    SumNonNegative(RankOf(), s.calls);
    if c :| 0 <= c < |s.calls| && !IsOver(s.calls[c]) {
      var l := NeverStuck(cfg, s, c);
      var t := Step(cfg, s, l);
      StepUsesWork(cfg, s, l);
      SumNonNegative(RankOf(), t.calls);
      var ms;
      ms, v := Drains(cfg, t);
      ls := [l] + ms;
      ExecFirst(cfg, s, l, ms);
      assert ls[1..] == ms;
    } else {
      ls, v := [], s;
    }
  }

  // ---- it is the timeout that does it -----------------------------------------------------------------------

  predicate GivesUpOrIsNew(l: Label) { l.CallSync? || l.CallAsync? || l.Timeout? || l.Interrupt? }

  /** Nothing can move but by giving up the wait for a permit. */
  ghost predicate Knotted(cfg: Config, s: State) {
    forall l :: Steps(cfg, s, l) ==> GivesUpOrIsNew(l)
  }

  predicate Waits(p: Phase) { IsOver(p) || Asks(p) || Queues(p) }

  /** No permit is free, no thread is to be had, and everybody waits for the one or the other. */
  ghost predicate CircularWait(cfg: Config, s: State) {
    s.free == 0 && Busy(s) >= cfg.limit && forall c :: 0 <= c < |s.calls| ==> Waits(s.calls[c])
  }

  lemma CircularWaitIsKnotted(cfg: Config, s: State, l: Label)
    requires CircularWait(cfg, s) && Steps(cfg, s, l)
    ensures GivesUpOrIsNew(l)
  {
    assert forall c :: 0 <= c < |s.calls| ==> Waits(s.calls[c]);
  }

  lemma KnottedWaits(cfg: Config, s: State, c: nat)
    requires Knotted(cfg, s) && c < |s.calls|
    ensures Waits(s.calls[c])
    ensures Asks(s.calls[c]) ==> s.free <= 0
    ensures Queues(s.calls[c]) ==> Busy(s) >= cfg.limit
  {
    assert !Steps(cfg, s, Submit(c, true)) && !Steps(cfg, s, Finish(c, true)) && !Steps(cfg, s, Release(c));
    assert !Steps(cfg, s, Acquire(c)) && !Steps(cfg, s, Begin(c));
  }

  /** A queued call needs a busy thread, whose call then asks; an asking one a held permit, whose call
      then queues: so a knot has both. */
  lemma KnotHasBoth(cfg: Config, s: State, c: nat)
    requires Sane(cfg) && Inv(cfg, s) && Knotted(cfg, s) && c < |s.calls| && !IsOver(s.calls[c])
    ensures s.free == 0 && Busy(s) >= cfg.limit
  {
    KnottedWaits(cfg, s, c);
    if Asks(s.calls[c]) {
      CountZero(HoldsPermit, s.calls);
      var d :| 0 <= d < |s.calls| && HoldsPermit(s.calls[d]);
      KnottedWaits(cfg, s, d);
    } else {
      CountZero(OnThread, s.calls);
      var d :| 0 <= d < |s.calls| && OnThread(s.calls[d]);
      KnottedWaits(cfg, s, d);
    }
  }

  lemma KnottedExactlyWhen(cfg: Config, s: State, c: nat)
    requires Sane(cfg) && Inv(cfg, s) && c < |s.calls| && !IsOver(s.calls[c])
    ensures Knotted(cfg, s) <==> CircularWait(cfg, s)
  {
    if Knotted(cfg, s) {
      KnotHasBoth(cfg, s, c);
      forall d | 0 <= d < |s.calls| ensures Waits(s.calls[d]) {
        KnottedWaits(cfg, s, d);
      }
    }
    if CircularWait(cfg, s) {
      forall l | Steps(cfg, s, l) ensures GivesUpOrIsNew(l) {
        CircularWaitIsKnotted(cfg, s, l);
      }
    }
  }

  /** In any reachable state with an unfinished call: only giving up can move an existing call exactly
      when the wait is circular. */
  lemma OnlyGivingUpUntiesIt(cfg: Config, ls: seq<Label>, c: nat)
    requires Sane(cfg) && Exec(cfg, Start(cfg), ls).Some?
    requires c < |Exec(cfg, Start(cfg), ls).value.calls| && !IsOver(Exec(cfg, Start(cfg), ls).value.calls[c])
    ensures Knotted(cfg, Exec(cfg, Start(cfg), ls).value) <==> CircularWait(cfg, Exec(cfg, Start(cfg), ls).value)
  {
    EveryRunKeeps(cfg, ls);
    KnottedExactlyWhen(cfg, Exec(cfg, Start(cfg), ls).value, c);
  }

  /** Such a state: one permit, one thread, an async task on the thread waiting for the permit, and a
      sync caller holding the permit with its task queued behind. */
  const KNOT := State(0, [AsyncAsking, SyncQueued], 2, 0, 0, 0)
  const SMALL := Config(1, 1, 1, 10)

  lemma Ran(cfg: Config, s0: State, ls: seq<Label>, s: State, l: Label, v: State) returns (ms: seq<Label>)
    requires Exec(cfg, s0, ls) == Some(s) && Steps(cfg, s, l) && Step(cfg, s, l) == v
    ensures Exec(cfg, s0, ms) == Some(v)
  {
    ms := ls + [l];
    assert ms[..|ls|] == ls;
  }

  lemma KnotIsBusy()
    ensures Busy(KNOT) == 1
  {
    assert KNOT.calls[..1] == [AsyncAsking] && [AsyncAsking][..0] == [];
    assert Count(OnThread, [AsyncAsking]) == 1;
  }

  lemma KnotIsReached() returns (ls: seq<Label>)
    ensures Exec(SMALL, Start(SMALL), ls) == Some(KNOT) && CircularWait(SMALL, KNOT)
  {
    var s1, s2 := State(1, [AsyncQueued], 1, 0, 0, 0), State(1, [AsyncAsking], 1, 0, 0, 0);
    var s3, s4 := State(1, [AsyncAsking, SyncAsking], 2, 0, 0, 0), State(0, [AsyncAsking, SyncPermitted], 2, 0, 0, 0);
    ls := Ran(SMALL, Start(SMALL), [], Start(SMALL), CallAsync(true), s1);
    assert [AsyncQueued][..0] == [];
    assert Busy(s1) == 0;
    ls := Ran(SMALL, Start(SMALL), ls, s1, Begin(0), s2);
    ls := Ran(SMALL, Start(SMALL), ls, s2, CallSync, s3);
    ls := Ran(SMALL, Start(SMALL), ls, s3, Acquire(1), s4);
    ls := Ran(SMALL, Start(SMALL), ls, s4, Submit(1, true), KNOT);
    KnotIsBusy();
  }
}
