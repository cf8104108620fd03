/** Local date-times as whole seconds; day 0 is a Monday. */
module Calendar {
  const DAY := 86400
  const CHECKPOINT := 9 * 3600 + 15 * 60  // 09:15

  function Day(t: int): int { t / DAY }

  predicate Weekend(day: int) { day % 7 == 5 || day % 7 == 6 }

  /** What "next workday" promises: the first weekday after the base date, at 09:15. */
  predicate IsNextWorkday(base: int, t: int) {
    && t == Day(t) * DAY + CHECKPOINT
    && Day(base) < Day(t) <= Day(base) + 3
    && !Weekend(Day(t))
    && forall d :: Day(base) < d < Day(t) ==> Weekend(d)
  }

  function NextWorkday(base: int): int {
    var d := Day(base) + 1;
    (if d % 7 == 5 then d + 2 else if d % 7 == 6 then d + 1 else d) * DAY + CHECKPOINT
  }

  lemma DayAtCheckpoint(d: int)
    ensures Day(d * DAY + CHECKPOINT) == d
  {
  }

  lemma NextWorkdayIsFirst(base: int, t: int)
    ensures IsNextWorkday(base, NextWorkday(base)) && base < NextWorkday(base)
    ensures IsNextWorkday(base, t) ==> t == NextWorkday(base)
  {
    var r := NextWorkday(base);
    var d := Day(base) + 1;
    DayAtCheckpoint(if d % 7 == 5 then d + 2 else if d % 7 == 6 then d + 1 else d);
    if IsNextWorkday(base, t) {
      assert Day(t) < Day(r) ==> Weekend(Day(t));
      assert Day(r) < Day(t) ==> Weekend(Day(r));
    }
  }

  /** nextWorkdayAtFixedTime: step over Saturday and Sunday. */
  method NextWorkdayAtFixedTime(base: int) returns (t: int)
    ensures IsNextWorkday(base, t)
  {
    var date := Day(base) + 1;
    while Weekend(date)
      invariant Day(base) < date <= Day(base) + 3
      invariant date == Day(base) + 3 ==> !Weekend(date)
      invariant forall d :: Day(base) < d < date ==> Weekend(d)
      decreases Day(base) + 3 - date
    {
      assert date > Day(base) + 1 ==> Weekend(Day(base) + 1);
      date := date + 1;
    }
    t := date * DAY + CHECKPOINT;
    assert Day(t) == date;
  }
}
