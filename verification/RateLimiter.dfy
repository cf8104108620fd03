/** The fixed-window rate limiter in its three forms, on one Redis key, with the calls' commands
    interleaved. A request is let through when its INCR answered at most `max`, or when the limiter
    got no answer and fails open. */
module RateLimiter {
  import opened Options
  import opened Sums

  datatype Form =
    | Pipelined   // Python gateway: INCR and TTL in one transaction, EXPIRE if the TTL is negative
    | Stepwise    // Go gateway: INCR, TTL, EXPIRE if the TTL is negative
    | FirstOnly   // product service: INCR, EXPIRE if the counter is 1

  datatype Config = Config(form: Form, window: int, max: nat)

  datatype Counter = Counter(count: nat, deadline: Option<int>)

  /** Blind: the limiter answered "don't know", because its connection broke. */
  datatype Phase = NeedTtl | MustExpire | Finished | Crashed | Blind

  /** A call: when its INCR ran, in which life of the key, and what INCR answered. */
  datatype Call = Call(time: int, life: nat, count: nat, phase: Phase)

  datatype State = State(
    now: int,
    key: Option<Counter>,
    calls: seq<Call>,
    births: seq<int>)             // when each life of the key began

  datatype Label =
    | Tick(to: int)               // time passes; a key past its deadline is gone
    | Incr
    | LostIncr                    // INCR takes effect, its answer is lost
    | Ttl(c: nat)
    | Expire(c: nat)
    | Break(c: nat, reached: bool) // the connection breaks in TTL or EXPIRE, after or before its effect
    | Crash(c: nat)               // the caller dies

  predicate InFlight(c: Call) { c.phase == NeedTtl || c.phase == MustExpire }

  predicate Steps(s: State, l: Label) {
    match l
    case Tick(to) => to >= s.now
    case Incr => true
    case LostIncr => true
    case Ttl(c) => c < |s.calls| && s.calls[c].phase == NeedTtl
    case Expire(c) => c < |s.calls| && s.calls[c].phase == MustExpire
    case Break(c, _) => c < |s.calls| && InFlight(s.calls[c])
    case Crash(c) => c < |s.calls| && InFlight(s.calls[c])
  }

  predicate NoDeadline(key: Option<Counter>) { key.Some? && key.value.deadline.None? }

  /** What a call does next once its INCR has answered. */
  function AfterIncr(form: Form, k: Counter): Phase {
    match form
    case Pipelined => if k.deadline.None? then MustExpire else Finished
    case Stepwise => NeedTtl
    case FirstOnly => if k.count == 1 then MustExpire else Finished
  }

  /** The gateways give up the count with the connection; the product service has it already. */
  function AfterBreak(form: Form): Phase { if form == FirstOnly then Finished else Blind }

  function Counted(s: State): Counter {
    if s.key.Some? then s.key.value.(count := s.key.value.count + 1) else Counter(1, None)
  }

  function DoIncr(s: State, phase: Phase): State {
    var births := if s.key.Some? && s.births != [] then s.births else s.births + [s.now];
    State(s.now, Some(Counted(s)), s.calls + [Call(s.now, |births| - 1, Counted(s).count, phase)], births)
  }

  function SetPhase(s: State, c: nat, phase: Phase): State
    requires c < |s.calls|
  {
    s.(calls := s.calls[c := s.calls[c].(phase := phase)])
  }

  function Expired(cfg: Config, s: State): State {
    s.(key := if s.key.Some? then Some(s.key.value.(deadline := Some(s.now + cfg.window))) else None)
  }

  function Step(cfg: Config, s: State, l: Label): State
    requires Steps(s, l)
  {
    match l
    case Tick(to) =>
      var gone := s.key.Some? && s.key.value.deadline.Some? && s.key.value.deadline.value <= to;
      s.(now := to, key := if gone then None else s.key)
    case Incr => DoIncr(s, AfterIncr(cfg.form, Counted(s)))
    case LostIncr => DoIncr(s, Blind)
    case Ttl(c) => SetPhase(s, c, if s.key.None? || s.key.value.deadline.None? then MustExpire else Finished)
    case Expire(c) => SetPhase(Expired(cfg, s), c, Finished)
    case Break(c, reached) =>
      SetPhase(if reached && s.calls[c].phase == MustExpire then Expired(cfg, s) else s, c, AfterBreak(cfg.form))
    case Crash(c) => SetPhase(s, c, Crashed)
  }

  function Exec(cfg: Config, s: State, ls: seq<Label>): Option<State> {
    if ls == [] then Some(s)
    else
      match Exec(cfg, s, ls[..|ls| - 1])
      case Some(v) => if Steps(v, ls[|ls| - 1]) then Some(Step(cfg, v, ls[|ls| - 1])) else None
      case None => None
  }

  function Start(now: int): State { State(now, None, [], []) }

  /** A caller is left without an answer exactly when the reply to its INCR is lost or, at the gateways, its
      connection breaks afterwards; the product service has its count by then and keeps it. */
  lemma WhoIsBlind(cfg: Config, s: State, l: Label, c: nat)
    requires Steps(s, l) && c < |Step(cfg, s, l).calls|
    ensures var now := Step(cfg, s, l).calls[c];
      && (now.phase == Blind <==>
            || (c < |s.calls| && s.calls[c].phase == Blind)
            || (l.LostIncr? && c == |s.calls|)
            || (l.Break? && l.c == c && cfg.form != FirstOnly))
      && (now.phase == Crashed <==> (c < |s.calls| && s.calls[c].phase == Crashed) || l == Crash(c))
      && (c < |s.calls| ==> now.count == s.calls[c].count && now.time == s.calls[c].time)
  {
  }

  // ---- lives of the key ---------------------------------------------------------------------------------

  ghost predicate Spaced(births: seq<int>, window: int) {
    forall g, h :: 0 <= g < h < |births| ==> births[g] + window <= births[h]
  }

  /** A life of the key lasts a window at least, however late or often EXPIRE is sent, because every
      EXPIRE sets a deadline one window from the time it runs. */
  ghost predicate LivesOk(cfg: Config, s: State) {
    && Spaced(s.births, cfg.window)
    && (s.births == [] ==> s.key.None?)
    && (s.births != [] ==> s.births[|s.births| - 1] <= s.now)
    && (s.births != [] && s.key.None? ==> s.births[|s.births| - 1] + cfg.window <= s.now)
    && (s.key.Some? && s.key.value.deadline.Some? ==>
          && s.births[|s.births| - 1] + cfg.window <= s.key.value.deadline.value
          && s.now < s.key.value.deadline.value)
  }

  lemma LivesKept(cfg: Config, s: State, l: Label)
    requires cfg.window > 0 && LivesOk(cfg, s) && Steps(s, l)
    ensures LivesOk(cfg, Step(cfg, s, l))
  {
  }

  // ---- calls and the lives they fall into -------------------------------------------------------------------

  ghost predicate CallOk(s: State, c: Call) {
    && c.life < |s.births| && s.births[c.life] <= c.time <= s.now
    && (c.life + 1 < |s.births| ==> c.time <= s.births[c.life + 1])
  }

  ghost predicate CallsOk(s: State) {
    && (forall i :: 0 <= i < |s.calls| ==> CallOk(s, s.calls[i]))
    && (forall i, j :: 0 <= i < j < |s.calls| ==> s.calls[i].life <= s.calls[j].life)
  }

  predicate Began(s: State, g: nat, c: Call) { g < |s.births| && c.time == s.births[g] && c.life == g && c.count == 1 }

  ghost predicate HasBeginner(s: State, g: nat) { exists i :: 0 <= i < |s.calls| && Began(s, g, s.calls[i]) }

  /** Every life of the key was started by a call that was answered 1. */
  ghost predicate AllBegan(s: State) { forall g :: 0 <= g < |s.births| ==> HasBeginner(s, g) }

  /** Same calls, but for their phases. */
  ghost predicate SameFacts(a: seq<Call>, b: seq<Call>) {
    |a| == |b| && forall i :: 0 <= i < |a| ==> a[i].time == b[i].time && a[i].life == b[i].life && a[i].count == b[i].count
  }

  predicate Counts(l: Label) { l.Incr? || l.LostIncr? }

  lemma PhaseStep(cfg: Config, s: State, l: Label)
    requires Steps(s, l) && !Counts(l)
    ensures var v := Step(cfg, s, l);
      && SameFacts(s.calls, v.calls) && v.births == s.births && s.now <= v.now
      && (v.key.Some? ==> s.key.Some? && v.key.value.count == s.key.value.count)
  {
  }

  lemma IncrKeepsCalls(cfg: Config, s: State, phase: Phase)
    requires LivesOk(cfg, s) && CallsOk(s)
    ensures CallsOk(DoIncr(s, phase))
  {
    var v := DoIncr(s, phase);
    forall i | 0 <= i < |v.calls| ensures CallOk(v, v.calls[i]) {
      if i < |s.calls| { assert CallOk(s, s.calls[i]) && v.calls[i] == s.calls[i]; }
    }
  }

  lemma PhaseKeepsCalls(cfg: Config, s: State, l: Label)
    requires CallsOk(s) && Steps(s, l) && !Counts(l)
    ensures CallsOk(Step(cfg, s, l))
  {
    var v := Step(cfg, s, l);
    PhaseStep(cfg, s, l);
    forall i | 0 <= i < |v.calls| ensures CallOk(v, v.calls[i]) {
      assert CallOk(s, s.calls[i]);
    }
  }

  lemma BeginningsKept(cfg: Config, s: State, l: Label)
    requires AllBegan(s) && Steps(s, l) && (s.births == [] ==> s.key.None?)
    ensures AllBegan(Step(cfg, s, l))
  {
    var v := Step(cfg, s, l);
    if !Counts(l) { PhaseStep(cfg, s, l); }
    forall g | 0 <= g < |v.births| ensures HasBeginner(v, g) {
      if g < |s.births| {
        assert HasBeginner(s, g);
        var i :| 0 <= i < |s.calls| && Began(s, g, s.calls[i]);
        assert Began(v, g, v.calls[i]);
      } else {
        assert Began(v, g, v.calls[|s.calls|]);
      }
    }
  }

  // ---- how many a life admits ---------------------------------------------------------------------------------

  function OfLife(max: nat, g: nat, c: Call): int { if c.life == g && c.count <= max then 1 else 0 }

  ghost function LifeCount(max: nat, g: nat): Call -> int { (c: Call) => OfLife(max, g, c) }

  ghost function AdmittedIn(max: nat, calls: seq<Call>, g: nat): int { SumBy(LifeCount(max, g), calls) }

  ghost predicate CountsOk(cfg: Config, s: State) {
    && (forall g: nat :: AdmittedIn(cfg.max, s.calls, g) <= cfg.max)
    && (s.key.Some? && s.births != [] ==> AdmittedIn(cfg.max, s.calls, |s.births| - 1) <= s.key.value.count)
  }

  lemma NewLifeIsEmpty(max: nat, s: State, g: nat)
    requires CallsOk(s) && g >= |s.births|
    ensures AdmittedIn(max, s.calls, g) == 0
  {
    forall i | 0 <= i < |s.calls| ensures OfLife(max, g, s.calls[i]) == 0 {
      assert CallOk(s, s.calls[i]);
    }
    SumZero(LifeCount(max, g), s.calls);
  }

  lemma IncrCounts(cfg: Config, s: State, phase: Phase, g: nat)
    requires LivesOk(cfg, s) && CallsOk(s) && CountsOk(cfg, s)
    ensures var v := DoIncr(s, phase);
      && AdmittedIn(cfg.max, v.calls, g) <= cfg.max
      && (g == |v.births| - 1 ==> AdmittedIn(cfg.max, v.calls, g) <= v.key.value.count)
  {
    var v := DoIncr(s, phase);
    NewLifeIsEmpty(cfg.max, s, |s.births|);
    assert AdmittedIn(cfg.max, s.calls, g) <= cfg.max;
    SumAppend(LifeCount(cfg.max, g), s.calls, v.calls[|s.calls|]);
  }

  lemma IncrKeepsCounts(cfg: Config, s: State, phase: Phase)
    requires LivesOk(cfg, s) && CallsOk(s) && CountsOk(cfg, s)
    ensures CountsOk(cfg, DoIncr(s, phase))
  {
    forall g: nat ensures AdmittedIn(cfg.max, DoIncr(s, phase).calls, g) <= cfg.max {
      IncrCounts(cfg, s, phase, g);
    }
    IncrCounts(cfg, s, phase, |DoIncr(s, phase).births| - 1);
  }

  lemma PhaseKeepsCounts(cfg: Config, s: State, l: Label)
    requires CountsOk(cfg, s) && Steps(s, l) && !Counts(l)
    ensures CountsOk(cfg, Step(cfg, s, l))
  {
    var v := Step(cfg, s, l);
    PhaseStep(cfg, s, l);
    forall g: nat ensures AdmittedIn(cfg.max, v.calls, g) == AdmittedIn(cfg.max, s.calls, g) {
      SumSame(LifeCount(cfg.max, g), v.calls, s.calls);
    }
  }

  ghost predicate Inv(cfg: Config, s: State) {
    LivesOk(cfg, s) && CallsOk(s) && CountsOk(cfg, s) && AllBegan(s)
  }

  lemma StepKeeps(cfg: Config, s: State, l: Label)
    requires cfg.window > 0 && Inv(cfg, s) && Steps(s, l)
    ensures Inv(cfg, Step(cfg, s, l))
  {
    LivesKept(cfg, s, l);
    BeginningsKept(cfg, s, l);
    if Counts(l) {
      var phase := if l.Incr? then AfterIncr(cfg.form, Counted(s)) else Blind;
      IncrKeepsCalls(cfg, s, phase);
      IncrKeepsCounts(cfg, s, phase);
    } else {
      PhaseKeepsCalls(cfg, s, l);
      PhaseKeepsCounts(cfg, s, l);
    }
  }

  lemma StartIsOk(cfg: Config, t: int)
    ensures Inv(cfg, Start(t))
  {
  }

  lemma {:induction false} EveryRunKeeps(cfg: Config, t: int, ls: seq<Label>)
    requires cfg.window > 0 && Exec(cfg, Start(t), ls).Some?
    ensures Inv(cfg, Exec(cfg, Start(t), ls).value)
  {
    if ls != [] {
      EveryRunKeeps(cfg, t, ls[..|ls| - 1]);
      StepKeeps(cfg, Exec(cfg, Start(t), ls[..|ls| - 1]).value, ls[|ls| - 1]);
    } else {
      StartIsOk(cfg, t);
    }
  }

  // ---- the sliding bound ----------------------------------------------------------------------------------------

  predicate InWindow(a: int, window: int, c: Call) { a <= c.time < a + window }

  /** Within the window and answered at most max. */
  function Judged(cfg: Config, a: int, c: Call): int { if InWindow(a, cfg.window, c) && c.count <= cfg.max then 1 else 0 }

  /** Within the window and let through: by its count, or because the limiter could not tell. */
  function Through(cfg: Config, a: int, c: Call): int {
    if InWindow(a, cfg.window, c) && (c.phase == Blind || (c.phase != Crashed && c.count <= cfg.max)) then 1 else 0
  }

  /** Within the window and cut off from its answer. */
  function CutOff(cfg: Config, a: int, c: Call): int { if InWindow(a, cfg.window, c) && c.phase == Blind then 1 else 0 }

  ghost function JudgedIn(cfg: Config, a: int): Call -> int { (c: Call) => Judged(cfg, a, c) }
  ghost function ThroughIn(cfg: Config, a: int): Call -> int { (c: Call) => Through(cfg, a, c) }
  ghost function CutOffIn(cfg: Config, a: int): Call -> int { (c: Call) => CutOff(cfg, a, c) }

  function Bound(max: nat): int { if max == 0 then 0 else 2 * max - 1 }

  /** The first call inside the window, if any. */
  lemma {:induction false} FirstInside(cfg: Config, calls: seq<Call>, a: int) returns (j: Option<nat>)
    ensures j.None? ==> forall i :: 0 <= i < |calls| ==> Judged(cfg, a, calls[i]) == 0
    ensures j.Some? ==> j.value < |calls| && Judged(cfg, a, calls[j.value]) == 1
    ensures j.Some? ==> forall i :: 0 <= i < j.value ==> Judged(cfg, a, calls[i]) == 0
  {
    if calls == [] {
      j := None;
    } else {
      var n := |calls| - 1;
      j := FirstInside(cfg, calls[..n], a);
      if j.None? {
        assert forall i :: 0 <= i < n ==> calls[i] == calls[..n][i];
        if Judged(cfg, a, calls[n]) == 1 { j := Some(n); }
      }
    }
  }

  /** What falls into the window belongs to the first such call's life or to the one after it. */
  lemma OnlyTwoLives(cfg: Config, s: State, a: int, j: nat, i: nat)
    requires LivesOk(cfg, s) && CallsOk(s) && i < |s.calls| && j < |s.calls|
    requires Judged(cfg, a, s.calls[j]) == 1
    requires i < j ==> Judged(cfg, a, s.calls[i]) == 0
    ensures Judged(cfg, a, s.calls[i])
      <= OfLife(cfg.max, s.calls[j].life, s.calls[i]) + OfLife(cfg.max, s.calls[j].life + 1, s.calls[i])
  {
    assert CallOk(s, s.calls[i]) && CallOk(s, s.calls[j]);
    var g, h := s.calls[j].life, s.calls[i].life;
    if i >= j && h > g + 1 {
      assert s.births[g + 1] + cfg.window <= s.births[h];
    }
  }

  /** If the window reaches into a second life, it has missed the call that started the first. */
  lemma StartIsOutside(cfg: Config, s: State, a: int, g: nat, i: nat) returns (k: nat)
    requires cfg.max > 0 && LivesOk(cfg, s) && CallsOk(s) && AllBegan(s) && i < |s.calls|
    requires Judged(cfg, a, s.calls[i]) == 1 && s.calls[i].life == g + 1
    ensures k < |s.calls| && OfLife(cfg.max, g, s.calls[k]) == 1 && Judged(cfg, a, s.calls[k]) == 0
  {
    assert CallOk(s, s.calls[i]);
    assert HasBeginner(s, g);
    k :| 0 <= k < |s.calls| && Began(s, g, s.calls[k]);
    assert s.births[g] + cfg.window <= s.births[g + 1];
  }

  lemma BoundInTwoLives(cfg: Config, s: State, a: int, g: nat, k: nat)
    requires CountsOk(cfg, s) && k < |s.calls|
    requires forall i :: 0 <= i < |s.calls| ==>
      Judged(cfg, a, s.calls[i]) <= OfLife(cfg.max, g, s.calls[i]) + OfLife(cfg.max, g + 1, s.calls[i])
    requires OfLife(cfg.max, g, s.calls[k]) == 1 && Judged(cfg, a, s.calls[k]) == 0
    ensures SumBy(JudgedIn(cfg, a), s.calls) <= 2 * cfg.max - 1
  {
    SumBelowTwo(JudgedIn(cfg, a), LifeCount(cfg.max, g), LifeCount(cfg.max, g + 1), s.calls, k);
    assert AdmittedIn(cfg.max, s.calls, g) <= cfg.max && AdmittedIn(cfg.max, s.calls, g + 1) <= cfg.max;
  }

  lemma BoundInOneLife(cfg: Config, s: State, a: int, g: nat)
    requires CountsOk(cfg, s)
    requires forall i :: 0 <= i < |s.calls| ==> Judged(cfg, a, s.calls[i]) <= OfLife(cfg.max, g, s.calls[i])
    ensures SumBy(JudgedIn(cfg, a), s.calls) <= cfg.max
  {
    SumAtMost(JudgedIn(cfg, a), LifeCount(cfg.max, g), s.calls);
    assert AdmittedIn(cfg.max, s.calls, g) <= cfg.max;
  }

  lemma BoundFrom(cfg: Config, s: State, a: int, j: nat)
    requires Inv(cfg, s) && j < |s.calls| && Judged(cfg, a, s.calls[j]) == 1
    requires forall i :: 0 <= i < j ==> Judged(cfg, a, s.calls[i]) == 0
    requires cfg.max > 0
    ensures SumBy(JudgedIn(cfg, a), s.calls) <= 2 * cfg.max - 1
  {
    var g := s.calls[j].life;
    forall i | 0 <= i < |s.calls|
      ensures Judged(cfg, a, s.calls[i]) <= OfLife(cfg.max, g, s.calls[i]) + OfLife(cfg.max, g + 1, s.calls[i])
    {
      OnlyTwoLives(cfg, s, a, j, i);
    }
    if i :| 0 <= i < |s.calls| && Judged(cfg, a, s.calls[i]) == 1 && s.calls[i].life == g + 1 {
      var k := StartIsOutside(cfg, s, a, g, i);
      BoundInTwoLives(cfg, s, a, g, k);
    } else {
      BoundInOneLife(cfg, s, a, g);
    }
  }

  ghost predicate AllPositive(calls: seq<Call>) { forall i :: 0 <= i < |calls| ==> calls[i].count >= 1 }

  lemma PositiveStep(cfg: Config, s: State, l: Label)
    requires AllPositive(s.calls) && Steps(s, l)
    ensures AllPositive(Step(cfg, s, l).calls)
  {
    if !Counts(l) { PhaseStep(cfg, s, l); }
  }

  lemma {:induction false} PositiveCounts(cfg: Config, t: int, ls: seq<Label>)
    requires Exec(cfg, Start(t), ls).Some?
    ensures AllPositive(Exec(cfg, Start(t), ls).value.calls)
  {
    if ls != [] {
      PositiveCounts(cfg, t, ls[..|ls| - 1]);
      PositiveStep(cfg, Exec(cfg, Start(t), ls[..|ls| - 1]).value, ls[|ls| - 1]);
    }
  }

  lemma JudgedBound(cfg: Config, t: int, ls: seq<Label>, a: int)
    requires Exec(cfg, Start(t), ls).Some?
    ensures SumBy(JudgedIn(cfg, a), Exec(cfg, Start(t), ls).value.calls) <= Bound(cfg.max)
  {
    var s := Exec(cfg, Start(t), ls).value;
    var j := FirstInside(cfg, s.calls, a);
    PositiveCounts(cfg, t, ls);
    if j.None? || cfg.max == 0 {
      SumZero(JudgedIn(cfg, a), s.calls);
    } else {
      EveryRunKeeps(cfg, t, ls);
      BoundFrom(cfg, s, a, j.value);
    }
  }

  lemma {:induction false} ThroughSplits(cfg: Config, calls: seq<Call>, a: int)
    ensures SumBy(ThroughIn(cfg, a), calls) <= SumBy(JudgedIn(cfg, a), calls) + SumBy(CutOffIn(cfg, a), calls)
  {
    SumAtMostTwo(ThroughIn(cfg, a), JudgedIn(cfg, a), CutOffIn(cfg, a), calls);
  }

  /** Any half-open interval of one window lets through fewer than twice the limit (none if the limit
      is zero), and those calls whose connection broke before the limiter had its answer: in all three
      forms, with any interleaving of INCR, TTL and EXPIRE, late or repeated EXPIREs and deaths. */
  lemma SlidingBound(cfg: Config, t: int, ls: seq<Label>, a: int)
    requires Exec(cfg, Start(t), ls).Some?
    ensures var calls := Exec(cfg, Start(t), ls).value.calls;
      SumBy(ThroughIn(cfg, a), calls) <= Bound(cfg.max) + SumBy(CutOffIn(cfg, a), calls)
  {
    JudgedBound(cfg, t, ls, a);
    ThroughSplits(cfg, Exec(cfg, Start(t), ls).value.calls, a);
  }

  // ---- and no fewer than that -----------------------------------------------------------------------------------

  ghost predicate SoonOver(cfg: Config, s: State) {
    s.key.Some? && s.key.value.deadline.Some? ==> s.key.value.deadline.value <= s.now + cfg.window
  }

  lemma NearStep(cfg: Config, s: State, l: Label)
    requires SoonOver(cfg, s) && Steps(s, l)
    ensures SoonOver(cfg, Step(cfg, s, l))
  {
  }

  lemma {:induction false} DeadlineIsNear(cfg: Config, t: int, ls: seq<Label>)
    requires Exec(cfg, Start(t), ls).Some?
    ensures SoonOver(cfg, Exec(cfg, Start(t), ls).value)
  {
    if ls != [] {
      DeadlineIsNear(cfg, t, ls[..|ls| - 1]);
      NearStep(cfg, Exec(cfg, Start(t), ls[..|ls| - 1]).value, ls[|ls| - 1]);
    }
  }

  predicate SetsDeadline(l: Label) { l.Expire? || (l.Break? && l.reached) }

  /** The key is gone or in a later life, or still has the deadline d. */
  ghost predicate SameLifeSameDeadline(s: State, lives: nat, d: int) {
    lives <= |s.births| && (|s.births| == lives && s.key.Some? ==> s.key.value.deadline == Some(d))
  }

  lemma SameDeadlineStep(cfg: Config, s: State, l: Label, lives: nat, d: int)
    requires SameLifeSameDeadline(s, lives, d) && Steps(s, l) && !SetsDeadline(l)
    requires s.key.Some? ==> s.births != []
    ensures SameLifeSameDeadline(Step(cfg, s, l), lives, d)
  {
  }

  lemma {:induction false} SameDeadlineRun(cfg: Config, t: int, ls: seq<Label>, ms: seq<Label>, d: int)
    requires cfg.window > 0 && Exec(cfg, Start(t), ls).Some? && Exec(cfg, Start(t), ls + ms).Some?
    requires forall i :: 0 <= i < |ms| ==> !SetsDeadline(ms[i])
    requires SameLifeSameDeadline(Exec(cfg, Start(t), ls).value, |Exec(cfg, Start(t), ls).value.births|, d)
    ensures SameLifeSameDeadline(Exec(cfg, Start(t), ls + ms).value, |Exec(cfg, Start(t), ls).value.births|, d)
  {
    if ms == [] {
      assert ls + ms == ls;
    } else {
      var front := ms[..|ms| - 1];
      assert (ls + ms)[..|ls + ms| - 1] == ls + front;
      SameDeadlineRun(cfg, t, ls, front, d);
      EveryRunKeeps(cfg, t, ls + front);
      SameDeadlineStep(cfg, Exec(cfg, Start(t), ls + front).value, ms[|ms| - 1], |Exec(cfg, Start(t), ls).value.births|, d);
    }
  }

  /** The window ends: from any reachable state whose key is absent or has a deadline, once a window has
      passed without an EXPIRE the life of the key that was current is over. */
  lemma WindowEnds(cfg: Config, t: int, ls: seq<Label>, ms: seq<Label>)
    requires cfg.window > 0 && Exec(cfg, Start(t), ls).Some? && Exec(cfg, Start(t), ls + ms).Some?
    requires forall i :: 0 <= i < |ms| ==> !SetsDeadline(ms[i])
    requires !NoDeadline(Exec(cfg, Start(t), ls).value.key)
    requires Exec(cfg, Start(t), ls + ms).value.now >= Exec(cfg, Start(t), ls).value.now + cfg.window
    ensures var s := Exec(cfg, Start(t), ls).value; var v := Exec(cfg, Start(t), ls + ms).value;
      v.key.None? || |v.births| > |s.births|
  {
    var s := Exec(cfg, Start(t), ls).value;
    DeadlineIsNear(cfg, t, ls);
    EveryRunKeeps(cfg, t, ls + ms);
    var d := if s.key.Some? then s.key.value.deadline.value else s.now;
    SameDeadlineRun(cfg, t, ls, ms, d);
  }

  /** So a request that comes a window after the last EXPIRE, with nothing in between, is answered 1. */
  lemma NextIsFirst(cfg: Config, t: int, ls: seq<Label>, to: int)
    requires cfg.window > 0 && Exec(cfg, Start(t), ls).Some?
    requires !NoDeadline(Exec(cfg, Start(t), ls).value.key) && to >= Exec(cfg, Start(t), ls).value.now + cfg.window
    ensures var s := Exec(cfg, Start(t), ls).value; var v := Step(cfg, Step(cfg, s, Tick(to)), Incr);
      && v.calls == s.calls + [v.calls[|s.calls|]]
      && v.calls[|s.calls|].count == 1 && v.calls[|s.calls|].time == to
  {
    DeadlineIsNear(cfg, t, ls);
  }

  // the counts, exactly

  function InLife(g: nat, c: Call): int { if c.life == g then 1 else 0 }

  ghost function LifeSize(g: nat): Call -> int { (c: Call) => InLife(g, c) }

  ghost function CallsIn(calls: seq<Call>, g: nat): int { SumBy(LifeSize(g), calls) }

  ghost predicate CallsExact(calls: seq<Call>) {
    forall i :: 0 <= i < |calls| ==> calls[i].count == CallsIn(calls[..i + 1], calls[i].life)
  }

  /** A call is answered the number of INCRs of its life so far, its own included; and the counter stands
      at the number of INCRs of the current life. */
  ghost predicate CountsExact(s: State) {
    && CallsExact(s.calls)
    && (s.key.Some? && s.births != [] ==> s.key.value.count == CallsIn(s.calls, |s.births| - 1))
  }

  lemma NewLifeHasNoCalls(s: State, g: nat)
    requires CallsOk(s) && g >= |s.births|
    ensures CallsIn(s.calls, g) == 0
  {
    forall i | 0 <= i < |s.calls| ensures InLife(g, s.calls[i]) == 0 {
      assert CallOk(s, s.calls[i]);
    }
    SumZero(LifeSize(g), s.calls);
  }

  lemma EarlierCallsStay(calls: seq<Call>, c: Call, i: nat)
    requires i < |calls|
    ensures (calls + [c])[..i + 1] == calls[..i + 1]
  {
  }

  lemma IncrIsCounted(cfg: Config, s: State, phase: Phase)
    requires LivesOk(cfg, s) && CallsOk(s) && CountsExact(s)
    ensures var v := DoIncr(s, phase);
      v.key.value.count == v.calls[|s.calls|].count == CallsIn(v.calls, |v.births| - 1)
  {
    var v := DoIncr(s, phase);
    NewLifeHasNoCalls(s, |s.births|);
    SumAppend(LifeSize(|v.births| - 1), s.calls, v.calls[|s.calls|]);
  }

  lemma IncrIsExact(cfg: Config, s: State, phase: Phase)
    requires LivesOk(cfg, s) && CallsOk(s) && CountsExact(s)
    ensures CountsExact(DoIncr(s, phase))
  {
    var v, n := DoIncr(s, phase), |s.calls|;
    IncrIsCounted(cfg, s, phase);
    assert v.calls[..n + 1] == v.calls;
    forall i | 0 <= i < |v.calls| ensures v.calls[i].count == CallsIn(v.calls[..i + 1], v.calls[i].life) {
      if i < n { EarlierCallsStay(s.calls, v.calls[n], i); }
    }
  }

  lemma SameFactsSameCount(a: seq<Call>, b: seq<Call>, n: nat, g: nat)
    requires SameFacts(a, b) && n <= |a|
    ensures CallsIn(a[..n], g) == CallsIn(b[..n], g)
  {
    var x, y := a[..n], b[..n];
    forall i | 0 <= i < |x| ensures InLife(g, x[i]) == InLife(g, y[i]) {
      assert x[i] == a[i] && y[i] == b[i];
    }
    SumSame(LifeSize(g), x, y);
  }

  lemma SameFactsExact(a: seq<Call>, b: seq<Call>)
    requires SameFacts(a, b) && CallsExact(a)
    ensures CallsExact(b)
  {
    forall i | 0 <= i < |b| ensures b[i].count == CallsIn(b[..i + 1], b[i].life) {
      SameFactsSameCount(a, b, i + 1, b[i].life);
    }
  }

  lemma CounterExact(s: State, v: State)
    requires SameFacts(s.calls, v.calls) && v.births == s.births && CountsExact(s)
    requires v.key.Some? ==> s.key.Some? && v.key.value.count == s.key.value.count
    ensures v.key.Some? && v.births != [] ==> v.key.value.count == CallsIn(v.calls, |v.births| - 1)
  {
    if v.births != [] {
      SameFactsSameCount(s.calls, v.calls, |s.calls|, |s.births| - 1);
      assert s.calls[..|s.calls|] == s.calls && v.calls[..|s.calls|] == v.calls;
    }
  }

  lemma PhaseKeepsExact(cfg: Config, s: State, l: Label)
    requires CountsExact(s) && Steps(s, l) && !Counts(l)
    ensures CountsExact(Step(cfg, s, l))
  {
    var v := Step(cfg, s, l);
    PhaseStep(cfg, s, l);
    SameFactsExact(s.calls, v.calls);
    CounterExact(s, v);
  }

  lemma {:induction false} CountsAreExact(cfg: Config, t: int, ls: seq<Label>)
    requires cfg.window > 0 && Exec(cfg, Start(t), ls).Some?
    ensures CountsExact(Exec(cfg, Start(t), ls).value)
  {
    if ls != [] {
      var s, l := Exec(cfg, Start(t), ls[..|ls| - 1]).value, ls[|ls| - 1];
      CountsAreExact(cfg, t, ls[..|ls| - 1]);
      EveryRunKeeps(cfg, t, ls[..|ls| - 1]);
      if Counts(l) {
        IncrIsExact(cfg, s, if l.Incr? then AfterIncr(cfg.form, Counted(s)) else Blind);
      } else {
        PhaseKeepsExact(cfg, s, l);
      }
    }
  }

  /** Every life of the key lets its first max calls through, and by count no others: a call that was not
      cut off or killed is let through exactly when at most max INCRs of its life had run, its own
      included. */
  lemma FirstMaxPass(cfg: Config, t: int, ls: seq<Label>, i: nat)
    requires cfg.window > 0 && Exec(cfg, Start(t), ls).Some? && i < |Exec(cfg, Start(t), ls).value.calls|
    requires var c := Exec(cfg, Start(t), ls).value.calls[i]; c.phase != Blind && c.phase != Crashed
    ensures var s := Exec(cfg, Start(t), ls).value;
      Through(cfg, s.calls[i].time, s.calls[i]) == 1 <==> CallsIn(s.calls[..i + 1], s.calls[i].life) <= cfg.max
  {
    CountsAreExact(cfg, t, ls);
  }

  // ---- the key does not outlive its callers ----------------------------------------------------------------------

  ghost predicate Idle(s: State) { forall c :: 0 <= c < |s.calls| ==> !InFlight(s.calls[c]) }

  /** A key without a deadline has a caller who may still set one. */
  ghost predicate Attended(s: State) {
    (s.key.Some? ==> s.key.value.count >= 1) && (NoDeadline(s.key) ==> !Idle(s))
  }

  /** Call c is the only one in flight. */
  ghost predicate Alone(s: State, c: nat) {
    forall d :: 0 <= d < |s.calls| && d != c ==> !InFlight(s.calls[d])
  }

  /** The last call in flight is cut off before its EXPIRE while the key has no deadline; or a key is
      made by a call that never learns of it, with nobody else about. */
  ghost predicate Abandons(s: State, l: Label) {
    match l
    case Crash(c) => NoDeadline(s.key) && Alone(s, c)
    case Break(c, reached) =>
      NoDeadline(s.key) && Alone(s, c) && c < |s.calls| && !(reached && s.calls[c].phase == MustExpire)
    case LostIncr => s.key.None? && Idle(s)
    case _ => false
  }

  lemma CountStepAttends(cfg: Config, s: State, l: Label)
    requires Attended(s) && Steps(s, l) && Counts(l)
    ensures Attended(Step(cfg, s, l)) <==> !Abandons(s, l)
  {
    var v := Step(cfg, s, l);
    assert forall c :: 0 <= c < |s.calls| ==> v.calls[c] == s.calls[c];
    if !Idle(s) {
      var c :| 0 <= c < |s.calls| && InFlight(s.calls[c]);
      assert InFlight(v.calls[c]);
    } else if NoDeadline(v.key) && l.Incr? {
      assert InFlight(v.calls[|s.calls|]);
    }
  }

  lemma CutStepAttends(cfg: Config, s: State, l: Label)
    requires Attended(s) && Steps(s, l) && (l.Crash? || l.Break?)
    ensures Attended(Step(cfg, s, l)) <==> !Abandons(s, l)
  {
    var v := Step(cfg, s, l);
    assert forall d :: 0 <= d < |s.calls| && d != l.c ==> v.calls[d] == s.calls[d];
    assert !InFlight(v.calls[l.c]);
  }

  lemma QuietStepAttends(cfg: Config, s: State, l: Label)
    requires Attended(s) && Steps(s, l) && (l.Tick? || l.Ttl? || l.Expire?)
    ensures Attended(Step(cfg, s, l))
  {
    var v := Step(cfg, s, l);
    if NoDeadline(v.key) {
      var c :| 0 <= c < |s.calls| && InFlight(s.calls[c]);
      assert InFlight(v.calls[c]);
    }
  }

  /** In all three forms: the steps that leave a key without a deadline and without a caller are exactly
      the ones that abandon it. */
  lemma WhatAbandonsTheKey(cfg: Config, s: State, l: Label)
    requires Attended(s) && Steps(s, l)
    ensures Attended(Step(cfg, s, l)) <==> !Abandons(s, l)
  {
    if Counts(l) {
      CountStepAttends(cfg, s, l);
    } else if l.Crash? || l.Break? {
      CutStepAttends(cfg, s, l);
    } else {
      QuietStepAttends(cfg, s, l);
    }
  }

  ghost predicate SomeAbandoned(cfg: Config, t: int, ls: seq<Label>) {
    ls != [] &&
      var front, l := ls[..|ls| - 1], ls[|ls| - 1];
      SomeAbandoned(cfg, t, front) || match Exec(cfg, Start(t), front) case Some(s) => Abandons(s, l) case None => false
  }

  ghost predicate AttendedThroughout(cfg: Config, t: int, ls: seq<Label>) {
    && Exec(cfg, Start(t), ls).Some? && Attended(Exec(cfg, Start(t), ls).value)
    && (ls != [] ==> AttendedThroughout(cfg, t, ls[..|ls| - 1]))
  }

  /** So over whole runs: with no call in flight the key is absent or has a deadline, in every state of
      the run, exactly when no step abandons it. */
  lemma {:induction false} IdleKeyExpires(cfg: Config, t: int, ls: seq<Label>)
    requires Exec(cfg, Start(t), ls).Some?
    ensures AttendedThroughout(cfg, t, ls) <==> !SomeAbandoned(cfg, t, ls)
  {
    if ls != [] {
      var front := ls[..|ls| - 1];
      IdleKeyExpires(cfg, t, front);
      if !SomeAbandoned(cfg, t, front) {
        WhatAbandonsTheKey(cfg, Exec(cfg, Start(t), front).value, ls[|ls| - 1]);
      }
    }
  }

  /** One call run to its end, with nothing in between. */
  function WholeCall(cfg: Config, s: State): State {
    var c := |s.calls|;
    var a := Step(cfg, s, Incr);
    var b := if a.calls[c].phase == NeedTtl then Step(cfg, a, Ttl(c)) else a;
    if b.calls[c].phase == MustExpire then Step(cfg, b, Expire(c)) else b
  }

  /** The two gateways mend a key that was left without a deadline: the next call that gets through
      sets one. */
  lemma GatewaysHeal(cfg: Config, s: State)
    requires cfg.form != FirstOnly
    ensures WholeCall(cfg, s).key.Some? && !NoDeadline(WholeCall(cfg, s).key)
  {
  }

  // ---- the product service's key does ------------------------------------------------------------------------------

  /** The steps at which the EXPIRE of a life of the key is lost: its one caller dies or is cut off
      before EXPIRE takes effect, or never learns that it was the first. */
  predicate LosesExpire(s: State, l: Label) {
    l.Crash? || (l.Break? && !l.reached) || (l.LostIncr? && s.key.None?)
  }

  predicate ExpireWasLost(cfg: Config, t: int, ls: seq<Label>) {
    ls != [] &&
      var front, l := ls[..|ls| - 1], ls[|ls| - 1];
      ExpireWasLost(cfg, t, front) || match Exec(cfg, Start(t), front) case Some(s) => LosesExpire(s, l) case None => false
  }

  /** The only call in flight is the one that began this life, and it is there exactly while the key
      has no deadline and its EXPIRE is not lost. */
  ghost predicate OneStarter(s: State, lost: bool) {
    && (forall c, d :: 0 <= c < |s.calls| && 0 <= d < |s.calls| && InFlight(s.calls[c]) && InFlight(s.calls[d]) ==> c == d)
    && (forall c :: 0 <= c < |s.calls| ==> s.calls[c].phase != NeedTtl)
    && (!Idle(s) <==> NoDeadline(s.key) && !lost)
    && (lost ==> NoDeadline(s.key))
    && (s.key.Some? ==> s.key.value.count >= 1)
  }

  lemma CountKeepsStarter(cfg: Config, s: State, l: Label, lost: bool)
    requires cfg.form == FirstOnly && OneStarter(s, lost) && Steps(s, l) && Counts(l)
    ensures OneStarter(Step(cfg, s, l), lost || LosesExpire(s, l))
  {
    var v := Step(cfg, s, l);
    assert forall c :: 0 <= c < |s.calls| ==> v.calls[c] == s.calls[c];
    if s.key.None? {
      assert Idle(s);
      if l.Incr? { assert InFlight(v.calls[|s.calls|]); }
    } else {
      assert !InFlight(v.calls[|s.calls|]);
      if !Idle(s) {
        var c :| 0 <= c < |s.calls| && InFlight(s.calls[c]);
        assert InFlight(v.calls[c]);
      }
    }
  }

  lemma StarterEnds(cfg: Config, s: State, l: Label, lost: bool)
    requires cfg.form == FirstOnly && OneStarter(s, lost) && Steps(s, l) && (l.Expire? || l.Break? || l.Crash?)
    ensures OneStarter(Step(cfg, s, l), lost || LosesExpire(s, l))
  {
    var v := Step(cfg, s, l);
    assert InFlight(s.calls[l.c]);
    forall c | 0 <= c < |v.calls| ensures !InFlight(v.calls[c]) {
      assert c != l.c ==> v.calls[c] == s.calls[c];
    }
  }

  lemma StarterKept(cfg: Config, s: State, l: Label, lost: bool)
    requires cfg.form == FirstOnly && OneStarter(s, lost) && Steps(s, l)
    ensures OneStarter(Step(cfg, s, l), lost || LosesExpire(s, l))
  {
    if Counts(l) {
      CountKeepsStarter(cfg, s, l, lost);
    } else if l.Tick? {
      assert Step(cfg, s, l).calls == s.calls;
    } else {
      assert !l.Ttl?;
      StarterEnds(cfg, s, l, lost);
    }
  }

  lemma {:induction false} EveryRunHasOneStarter(cfg: Config, t: int, ls: seq<Label>)
    requires cfg.form == FirstOnly && Exec(cfg, Start(t), ls).Some?
    ensures OneStarter(Exec(cfg, Start(t), ls).value, ExpireWasLost(cfg, t, ls))
  {
    if ls != [] {
      EveryRunHasOneStarter(cfg, t, ls[..|ls| - 1]);
      StarterKept(cfg, Exec(cfg, Start(t), ls[..|ls| - 1]).value, ls[|ls| - 1], ExpireWasLost(cfg, t, ls[..|ls| - 1]));
    }
  }

  /** For every run: the key is left without a deadline and with no call in flight exactly when some
      step lost an EXPIRE. */
  lemma FirstOnlyLocksExactlyWhen(cfg: Config, t: int, ls: seq<Label>)
    requires cfg.form == FirstOnly && Exec(cfg, Start(t), ls).Some?
    ensures var s := Exec(cfg, Start(t), ls).value;
      NoDeadline(s.key) && Idle(s) <==> ExpireWasLost(cfg, t, ls)
  {
    EveryRunHasOneStarter(cfg, t, ls);
  }

  /** In particular, with connections that hold: exactly when some caller died. */
  lemma {:induction false} LossIsDeath(cfg: Config, t: int, ls: seq<Label>)
    requires Exec(cfg, Start(t), ls).Some? && forall i :: 0 <= i < |ls| ==> !ls[i].Break? && !ls[i].LostIncr?
    ensures ExpireWasLost(cfg, t, ls) <==> exists i :: 0 <= i < |ls| && ls[i].Crash?
  {
    if ls != [] {
      var front, l := ls[..|ls| - 1], ls[|ls| - 1];
      LossIsDeath(cfg, t, front);
      assert forall i :: 0 <= i < |front| ==> front[i] == ls[i];
      assert !l.Break? && !l.LostIncr?;
    }
  }

  /** Past the count n: every call from number m on was answered more, and the counter is not below. */
  ghost predicate Past(s: State, m: nat, n: nat) {
    && s.key.Some? && n <= s.key.value.count && m <= |s.calls|
    && forall c :: m <= c < |s.calls| ==> s.calls[c].count > n
  }

  lemma PastStep(cfg: Config, s: State, l: Label, m: nat, n: nat)
    requires NoDeadline(s.key) && Past(s, m, n) && Steps(s, l) && Idle(s)
    ensures Past(Step(cfg, s, l), m, n)
  {
  }

  /** And then it stays so for ever: past the limit nobody is let through by count again. */
  lemma {:induction false} FirstOnlyLocksOut(cfg: Config, t: int, ls: seq<Label>, ms: seq<Label>)
    requires cfg.form == FirstOnly && Exec(cfg, Start(t), ls).Some? && Exec(cfg, Start(t), ls + ms).Some?
    requires ExpireWasLost(cfg, t, ls)
    ensures var s := Exec(cfg, Start(t), ls).value; var v := Exec(cfg, Start(t), ls + ms).value;
      && ExpireWasLost(cfg, t, ls + ms) && NoDeadline(s.key) && NoDeadline(v.key) && Idle(v)
      && Past(v, |s.calls|, s.key.value.count)
  {
    EveryRunHasOneStarter(cfg, t, ls);
    if ms == [] {
      assert ls + ms == ls;
    } else {
      var front, l := ms[..|ms| - 1], ms[|ms| - 1];
      assert (ls + ms)[..|ls + ms| - 1] == ls + front;
      FirstOnlyLocksOut(cfg, t, ls, front);
      var s, u := Exec(cfg, Start(t), ls).value, Exec(cfg, Start(t), ls + front).value;
      PastStep(cfg, u, l, |s.calls|, s.key.value.count);
    }
    EveryRunHasOneStarter(cfg, t, ls + ms);
  }

  /** Such a run: one request, whose process dies before its EXPIRE. */
  lemma FirstOnlyCanLock(cfg: Config, t: int)
    requires cfg.form == FirstOnly
    ensures Exec(cfg, Start(t), [Incr, Crash(0)]).Some? && ExpireWasLost(cfg, t, [Incr, Crash(0)])
    ensures Exec(cfg, Start(t), [Incr, Crash(0)]).value.key == Some(Counter(1, None))
  {
    assert [Incr, Crash(0)][..1] == [Incr] && [Incr][..0] == [];
    assert Exec(cfg, Start(t), [Incr]) == Some(Step(cfg, Start(t), Incr));
    assert Step(cfg, Start(t), Incr).calls == [Call(t, 0, 1, MustExpire)];
  }
}
