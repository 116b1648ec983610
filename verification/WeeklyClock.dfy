/** The weekly clock of the supervisor, and which occurrences of a weekly task it runs. */
module WeeklyClock {
  import opened Sequences

  const SECOND: int := 1000000
  const DAY: int := 86400 * SECOND

  /** Naive local time: days since 1 January of year 1, a Monday, and microseconds of the day. */
  datatype Moment = Moment(day: int, micro: nat) {
    predicate AtMost(other: Moment) { day < other.day || (day == other.day && micro <= other.micro) }

    predicate Before(other: Moment) { !other.AtMost(this) }

    function PlusDays(d: int): Moment { Moment(day + d, micro) }

    function Isoweekday(): int { day % 7 + 1 }

    /** Microseconds since an earlier moment. */
    function Since(other: Moment): int { (day - other.day) * DAY + micro - other.micro }
  }

  /** A weekly schedule; weekday 0 and 7 both stand for Sunday. */
  datatype Schedule = Schedule(weekday: nat, hour: nat, minute: nat) {
    predicate Valid() { weekday <= 7 && hour < 24 && minute < 60 }

    function Target(): nat { if weekday == 0 then 7 else weekday }

    function Slot(): nat { (hour * 3600 + minute * 60) * 1000000 }

    /** The scheduled time on the day of `m`. */
    function On(m: Moment): Moment { Moment(m.day, Slot()) }

    predicate Occurs(m: Moment) { m.micro == Slot() && m.Isoweekday() == Target() }
  }

  /** The last scheduled time of day that is not after `now`. */
  function Candidate(now: Moment, s: Schedule): Moment {
    if now.Before(s.On(now)) then s.On(now).PlusDays(-1) else s.On(now)
  }

  function PreviousCalendar(now: Moment, s: Schedule): Moment {
    var candidate := Candidate(now, s);
    candidate.PlusDays(-((candidate.Isoweekday() - s.Target()) % 7))
  }

  lemma CandidateIsLast(now: Moment, s: Schedule, m: Moment)
    requires s.Occurs(m) && m.AtMost(now)
    ensures m.day <= Candidate(now, s).day
  {}

  lemma PreviousOccurs(now: Moment, s: Schedule)
    requires s.Valid()
    ensures s.Occurs(PreviousCalendar(now, s)) && PreviousCalendar(now, s).AtMost(now)
  {
    assert Candidate(now, s).AtMost(now);
    SubtractDays(Candidate(now, s).day, s.Target());
  }

  lemma SubtractDays(day: int, target: int)
    requires 1 <= target <= 7
    ensures (day - (day % 7 + 1 - target) % 7) % 7 + 1 == target
  {}

  /** The latest occurrence is one, is not in the future, and no later one is past. */
  lemma PreviousIsGreatest(now: Moment, s: Schedule)
    requires s.Valid()
    ensures s.Occurs(PreviousCalendar(now, s)) && PreviousCalendar(now, s).AtMost(now)
    ensures forall m | s.Occurs(m) && m.AtMost(now) :: m.AtMost(PreviousCalendar(now, s))
  {
    PreviousOccurs(now, s);
    var candidate := Candidate(now, s);
    var delta := (candidate.Isoweekday() - s.Target()) % 7;
    forall m | s.Occurs(m) && m.AtMost(now) ensures m.AtMost(PreviousCalendar(now, s)) {
      CandidateIsLast(now, s, m);
      NoDayBetween(m.day, candidate.day, delta, s.Target());
    }
  }

  /** Days with the same weekday are whole weeks apart. */
  lemma NoDayBetween(k: int, day: int, delta: int, target: int)
    requires 1 <= target <= 7 && k % 7 + 1 == target && delta == (day % 7 + 1 - target) % 7 && k <= day
    ensures k <= day - delta
  {}

  lemma SameWeekday(k: int, day: int)
    requires k % 7 == day % 7 && k < day + 7
    ensures k <= day
  {}

  /** The first of eight days that fits; the fallback after the loop is never reached. */
  method NextCalendar(now: Moment, s: Schedule) returns (next: Moment)
    requires s.Valid()
    ensures s.Occurs(next) && now.Before(next)
    ensures forall m | s.Occurs(m) && now.Before(m) :: next.AtMost(m)
    ensures next == PreviousCalendar(now, s).PlusDays(7)
  {
    SomeDayFits(now, s);
    for d := 0 to 8
      invariant forall e | 0 <= e < d :: !(now.Before(s.On(now).PlusDays(e)) && s.Occurs(s.On(now).PlusDays(e)))
    {
      next := s.On(now.PlusDays(d));
      assert next == s.On(now).PlusDays(d);
      if now.Before(next) && next.Isoweekday() == s.Target() {
        forall m | s.Occurs(m) && now.Before(m) ensures next.AtMost(m) {
          assert m == s.On(now).PlusDays(m.day - now.day);
        }
        WeekApart(now, s, next);
        return;
      }
    }
    assert false;
    next := now.PlusDays(7);
  }

  lemma SomeDayFits(now: Moment, s: Schedule)
    requires s.Valid()
    ensures exists e :: 0 <= e < 8 && now.Before(s.On(now).PlusDays(e)) && s.Occurs(s.On(now).PlusDays(e))
  {
    var wait := (s.Target() - 1 - now.day) % 7;
    var e := if wait == 0 && !now.Before(s.On(now)) then 7 else wait;
    assert now.Before(s.On(now).PlusDays(e)) && s.Occurs(s.On(now).PlusDays(e));
  }

  lemma AWeekLater(now: Moment, s: Schedule)
    requires s.Valid()
    ensures s.Occurs(PreviousCalendar(now, s).PlusDays(7)) && now.Before(PreviousCalendar(now, s).PlusDays(7))
  {
    var previous := PreviousCalendar(now, s);
    PreviousIsGreatest(now, s);
    var later := previous.PlusDays(7);
    assert s.Occurs(later);
    assert later.AtMost(now) ==> later.AtMost(previous);
  }

  lemma AWeekEarlier(now: Moment, s: Schedule, next: Moment)
    requires s.Valid() && s.Occurs(next) && forall m | s.Occurs(m) && now.Before(m) :: next.AtMost(m)
    ensures next.PlusDays(-7).AtMost(PreviousCalendar(now, s))
  {
    PreviousIsGreatest(now, s);
    var earlier := next.PlusDays(-7);
    assert s.Occurs(earlier);
    assert now.Before(earlier) ==> next.AtMost(earlier);
  }

  /** The least occurrence after a moment and the greatest not after it are exactly a week apart. */
  lemma WeekApart(now: Moment, s: Schedule, next: Moment)
    requires s.Valid() && s.Occurs(next) && now.Before(next)
    requires forall m | s.Occurs(m) && now.Before(m) :: next.AtMost(m)
    ensures next == PreviousCalendar(now, s).PlusDays(7)
  {
    AWeekLater(now, s);
    AWeekEarlier(now, s, next);
    assert PreviousCalendar(now, s).micro == s.Slot();
    assert next.AtMost(PreviousCalendar(now, s).PlusDays(7));
  }

  /** An occurrence is the hour and minute of the schedule, to the microsecond, on its weekday. */
  lemma OccursIs(m: Moment, s: Schedule)
    requires s.Valid()
    ensures s.Occurs(m) <==> && m.micro == 3600000000 * s.hour + 60000000 * s.minute
                             && m.day % 7 == (if s.weekday in {0, 7} then 6 else s.weekday - 1)
  {}

  /** 1 January 2000 was a Saturday, and a day has 86400 seconds. */
  lemma KnownDays(m: Moment, days: int)
    ensures Moment(730119, m.micro).Isoweekday() == 6
    ensures m.PlusDays(days).Since(m) == days * 86400000000
  {}

  // ---- Runs of a weekly task ------------------------------------------------------------

  /** One run of the task: for which occurrence, when it ended, and whether it succeeded. */
  datatype Receipt = Receipt(day: int, success: bool)

  /**
   The supervisor's thread for one task over its restarts. `planned` is the occurrence it waits for;
   `runs` lists the occurrences run so far, and `settled` those whose success is on record.
   */
  datatype Task = Task(clock: Moment, planned: Option<Moment>, receipt: Option<Receipt>,
                       runs: seq<Moment>, settled: set<Moment>)

  /**
   A step at a time given by the clock. A run ends at `done`; `recorded` says that the receipt could
   be written.
   */
  datatype Step =
    | Start(now: Moment, done: Moment, success: bool, recorded: bool)
    | Plan(now: Moment)
    | Fire(now: Moment, done: Moment, success: bool, recorded: bool)
    | Stop

  /** The day for which the last run is on record as successful. */
  function LastRun(receipt: Option<Receipt>): Option<int> {
    if receipt.Some? && receipt.value.success then Some(receipt.value.day) else None
  }

  /** `window` is in microseconds; 0 means no catch-up. */
  predicate CatchesUp(now: Moment, s: Schedule, window: nat, receipt: Option<Receipt>) {
    var scheduled := PreviousCalendar(now, s);
    && window > 0 && scheduled.AtMost(now) && now.Since(scheduled) <= window
    && LastRun(receipt) != Some(scheduled.day)
  }

  function Ran(t: Task, occurrence: Moment, done: Moment, success: bool, recorded: bool): Task {
    Task(done, None,
         if recorded then Some(Receipt(occurrence.day, success)) else t.receipt,
         t.runs + [occurrence],
         if recorded && success then t.settled + {occurrence} else t.settled)
  }

  function StepTime(t: Task, step: Step): Moment {
    match step
    case Start(now, _, _, _) => now
    case Plan(now) => now
    case Fire(now, _, _, _) => now
    case Stop => t.clock
  }

  function Next(t: Task, s: Schedule, window: nat, step: Step): Task {
    match step
    case Start(now, done, success, recorded) =>
      if CatchesUp(now, s, window, t.receipt) then Ran(t, PreviousCalendar(now, s), done, success, recorded)
      else t.(clock := now, planned := None)
    case Plan(now) =>
      if t.planned.Some? then t.(clock := now)
      else t.(clock := now, planned := Some(PreviousCalendar(now, s).PlusDays(7)))
    case Fire(now, done, success, recorded) =>
      if t.planned.None? || now.Before(t.planned.value) then t.(clock := now)
      else Ran(t, t.planned.value, done, success, recorded)
    case Stop => t.(planned := None)
  }

  function Steps(t: Task, s: Schedule, window: nat, steps: seq<Step>): Task {
    if steps == [] then t else Next(Steps(t, s, window, steps[..|steps| - 1]), s, window, steps[|steps| - 1])
  }

  /** Nothing has run yet. */
  function Fresh(clock: Moment): Task { Task(clock, None, None, [], {}) }

  // ---- Which occurrences a step takes up --------------------------------------------------

  /** Occurrences are whole weeks apart, so the previous one is the only one within a week back. */
  lemma PreviousIff(now: Moment, s: Schedule, m: Moment)
    requires s.Valid() && s.Occurs(m)
    ensures PreviousCalendar(now, s) == m <==> m.AtMost(now) && now.Before(m.PlusDays(7))
  {
    PreviousIsGreatest(now, s);
    AWeekLater(now, s);
    var previous := PreviousCalendar(now, s);
    if m.AtMost(now) && now.Before(m.PlusDays(7)) {
      assert m.AtMost(previous) && previous.day < m.day + 7;
      SameWeekday(previous.day, m.day);
    }
  }

  /** The reading falls in the week that leads to the occurrence. */
  predicate LeadsTo(now: Moment, m: Moment) { m.PlusDays(-7).AtMost(now) && now.Before(m) }

  /** The reading is inside the catch-up window of the occurrence, which is not on the receipt. */
  predicate ReachesBack(now: Moment, m: Moment, window: nat, receipt: Option<Receipt>) {
    window > 0 && m.AtMost(now) && now.Before(m.PlusDays(7)) && now.Since(m) <= window && LastRun(receipt) != Some(m.day)
  }

  /** A thread that waits for nothing plans an occurrence exactly when the reading leads to it. */
  lemma PlanIff(t: Task, s: Schedule, window: nat, now: Moment, m: Moment)
    requires s.Valid() && s.Occurs(m) && t.planned.None?
    ensures Next(t, s, window, Plan(now)).planned == Some(m) <==> LeadsTo(now, m)
  {
    PreviousIff(now, s, m.PlusDays(-7));
    assert m.PlusDays(-7).PlusDays(7) == m;
    var previous := PreviousCalendar(now, s);
    assert previous.PlusDays(7) == m <==> previous == m.PlusDays(-7);
  }

  /** A start runs an occurrence exactly when the reading reaches back to it. */
  lemma StartIff(t: Task, s: Schedule, window: nat, step: Step, m: Moment)
    requires s.Valid() && s.Occurs(m) && step.Start?
    ensures Next(t, s, window, step).runs == t.runs + [m] <==> ReachesBack(step.now, m, window, t.receipt)
  {
    PreviousIff(step.now, s, m);
    assert t.runs != t.runs + [m];
    assert (t.runs + [PreviousCalendar(step.now, s)])[|t.runs|] == PreviousCalendar(step.now, s);
    assert (t.runs + [m])[|t.runs|] == m;
  }

  /** The step runs the occurrence or begins to wait for it. */
  predicate TakesUp(t: Task, v: Task, m: Moment) {
    v.runs == t.runs + [m] || (v.planned == Some(m) && t.planned != Some(m))
  }

  /** No reading leads to an occurrence on record as successful or reaches back to one. */
  predicate Careful(t: Task, window: nat, step: Step) {
    match step
    case Start(now, _, _, _) => forall m | m in t.settled :: !ReachesBack(now, m, window, t.receipt)
    case Plan(now) => t.planned.None? ==> forall m | m in t.settled :: !LeadsTo(now, m)
    case _ => true
  }

  /** What is settled has run, and is not what the thread waits for. */
  predicate Tidy(t: Task, s: Schedule) {
    && (forall m | m in t.settled :: s.Occurs(m) && m in t.runs)
    && (t.planned.Some? ==> s.Occurs(t.planned.value) && t.planned.value !in t.settled)
  }

  predicate TakesUpSettled(t: Task, v: Task) { exists m :: m in t.settled && TakesUp(t, v, m) }

  /** The exact condition on one reading of the clock. */
  lemma TakesUpSettledIff(t: Task, s: Schedule, window: nat, step: Step)
    requires s.Valid() && Tidy(t, s)
    ensures TakesUpSettled(t, Next(t, s, window, step)) <==> !Careful(t, window, step)
  {
    var v := Next(t, s, window, step);
    match step
    case Start(now, _, _, _) =>
      forall m | m in t.settled ensures TakesUp(t, v, m) <==> ReachesBack(now, m, window, t.receipt) {
        StartIff(t, s, window, step, m);
      }
    case Plan(now) =>
      forall m | m in t.settled ensures TakesUp(t, v, m) <==> t.planned.None? && LeadsTo(now, m) {
        if t.planned.None? { PlanIff(t, s, window, now, m); }
        assert t.runs != t.runs + [m];
      }
    case Fire(now, _, _, _) =>
      forall m | m in t.settled ensures !TakesUp(t, v, m) {
        assert t.runs != t.runs + [m];
        assert (t.runs + [m])[|t.runs|] == m;
        assert v.runs != t.runs ==> v.runs[|t.runs|] == t.planned.value;
      }
    case Stop =>
      forall m | m in t.settled ensures !TakesUp(t, v, m) { assert t.runs != t.runs + [m]; }
  }

  lemma StepIsTidy(t: Task, s: Schedule, window: nat, step: Step)
    requires s.Valid() && Tidy(t, s) && Careful(t, window, step)
    ensures var v := Next(t, s, window, step);
            && Tidy(v, s) && t.settled <= v.settled
            && (v.runs == t.runs || exists m :: v.runs == t.runs + [m] && m !in t.settled)
  {
    TakesUpSettledIff(t, s, window, step);
    var v := Next(t, s, window, step);
    match step
    case Start(now, _, _, _) =>
      PreviousIsGreatest(now, s);
      assert v.runs == t.runs || v.runs == t.runs + [PreviousCalendar(now, s)];
    case Plan(now) =>
      AWeekLater(now, s);
      assert v.planned.Some? ==> v.planned == t.planned || TakesUp(t, v, v.planned.value);
    case Fire(now, _, _, _) =>
      assert v.runs == t.runs || v.runs == t.runs + [t.planned.value];
    case Stop =>
  }

  predicate AllCareful(t: Task, s: Schedule, window: nat, steps: seq<Step>) {
    forall i | 0 <= i < |steps| :: Careful(Steps(t, s, window, steps[..i]), window, steps[i])
  }

  /**
   Over any restarts, failures, lost receipts and clock changes: while no reading leads to an
   occurrence whose success is on record or reaches back to one, such an occurrence never runs again.
   */
  lemma {:induction false} RecordedSuccessIsFinal(t: Task, s: Schedule, window: nat, steps: seq<Step>, m: Moment)
    requires s.Valid() && Tidy(t, s) && AllCareful(t, s, window, steps) && m in t.settled
    ensures var v := Steps(t, s, window, steps);
            && Tidy(v, s) && m in v.settled
            && t.runs <= v.runs && m !in v.runs[|t.runs|..]
  {
    if steps != [] {
      var front, last := steps[..|steps| - 1], steps[|steps| - 1];
      assert forall i | 0 <= i < |front| :: front[..i] == steps[..i];
      RecordedSuccessIsFinal(t, s, window, front, m);
      var u := Steps(t, s, window, front);
      assert Careful(Steps(t, s, window, steps[..|steps| - 1]), window, steps[|steps| - 1]);
      StepIsTidy(u, s, window, last);
      var v := Next(u, s, window, last);
      if v.runs != u.runs {
        var k :| v.runs == u.runs + [k] && k !in u.settled;
        assert v.runs[|t.runs|..] == u.runs[|t.runs|..] + [k];
      }
    }
  }

  predicate NeverTakesUpSettled(t: Task, s: Schedule, window: nat, steps: seq<Step>) {
    forall i | 0 <= i < |steps| :: !TakesUpSettled(Steps(t, s, window, steps[..i]), Steps(t, s, window, steps[..i + 1]))
  }

  lemma {:induction false} TidyWhileCareful(t: Task, s: Schedule, window: nat, steps: seq<Step>)
    requires s.Valid() && Tidy(t, s) && AllCareful(t, s, window, steps)
    ensures Tidy(Steps(t, s, window, steps), s)
  {
    if steps != [] {
      var front := steps[..|steps| - 1];
      assert forall i | 0 <= i < |front| :: front[..i] == steps[..i];
      TidyWhileCareful(t, s, window, front);
      assert Careful(Steps(t, s, window, front), window, steps[|front|]);
      StepIsTidy(Steps(t, s, window, front), s, window, steps[|front|]);
    }
  }

  /** The condition is exact over whole runs: without it some settled occurrence is run or waited for again. */
  lemma {:induction false} NothingRepeatsIff(t: Task, s: Schedule, window: nat, steps: seq<Step>)
    requires s.Valid() && Tidy(t, s)
    ensures NeverTakesUpSettled(t, s, window, steps) <==> AllCareful(t, s, window, steps)
  {
    if steps != [] {
      var front, last := steps[..|steps| - 1], steps[|steps| - 1];
      assert steps[..|steps|] == steps;
      assert forall i | 0 <= i <= |front| :: front[..i] == steps[..i];
      NothingRepeatsIff(t, s, window, front);
      var u := Steps(t, s, window, front);
      assert AllCareful(t, s, window, steps) <==> AllCareful(t, s, window, front) && Careful(u, window, last);
      assert NeverTakesUpSettled(t, s, window, steps)
             <==> NeverTakesUpSettled(t, s, window, front) && !TakesUpSettled(u, Next(u, s, window, last));
      if AllCareful(t, s, window, front) {
        TidyWhileCareful(t, s, window, front);
        TakesUpSettledIff(u, s, window, last);
      }
    }
  }

  // ---- Clocks that are careful ------------------------------------------------------------

  function ReceiptTime(t: Task, s: Schedule): Moment
    requires t.receipt.Some?
  {
    Moment(t.receipt.value.day, s.Slot())
  }

  /** The clock may go back, but no plan precedes a settled occurrence and no start the one on the receipt. */
  predicate InTime(t: Task, s: Schedule, step: Step) {
    match step
    case Start(now, _, _, _) => t.receipt.Some? ==> ReceiptTime(t, s).AtMost(now)
    case Plan(now) => forall m | m in t.settled :: m.AtMost(now)
    case _ => true
  }

  /** A settled occurrence is the one on the receipt or an earlier one, and before any that is waited for. */
  predicate SettledAt(t: Task, s: Schedule, m: Moment) {
    && s.Occurs(m) && m in t.runs
    && t.receipt.Some? && (m.day < t.receipt.value.day || LastRun(t.receipt) == Some(m.day))
    && (t.planned.Some? ==> m.Before(t.planned.value))
  }

  ghost predicate Orderly(t: Task, s: Schedule) {
    && (forall m {:trigger SettledAt(t, s, m)} | m in t.settled :: SettledAt(t, s, m))
    && (t.receipt.Some? ==> s.Occurs(ReceiptTime(t, s)))
    && (t.planned.Some? ==> s.Occurs(t.planned.value))
  }

  lemma OrderlyIsTidy(t: Task, s: Schedule)
    requires Orderly(t, s)
    ensures Tidy(t, s)
  {
    forall m | m in t.settled ensures s.Occurs(m) && m in t.runs && t.planned != Some(m) { assert SettledAt(t, s, m); }
  }

  lemma InTimeIsCareful(t: Task, s: Schedule, window: nat, step: Step)
    requires s.Valid() && Orderly(t, s) && InTime(t, s, step)
    ensures Careful(t, window, step)
  {
    forall m | m in t.settled
      ensures step.Start? ==> !ReachesBack(step.now, m, window, t.receipt)
      ensures step.Plan? ==> !LeadsTo(step.now, m)
    {
      assert SettledAt(t, s, m);
      if step.Start? && m.day < t.receipt.value.day {
        assert m.day + 7 <= t.receipt.value.day;
      }
    }
  }

  lemma RanIsOrderly(t: Task, s: Schedule, m: Moment, done: Moment, success: bool, recorded: bool)
    requires Orderly(t, s) && s.Occurs(m) && m !in t.settled && forall k | k in t.settled :: k.AtMost(m)
    ensures Orderly(Ran(t, m, done, success, recorded), s)
  {
    var v := Ran(t, m, done, success, recorded);
    assert m in v.runs;
    forall k | k in v.settled ensures SettledAt(v, s, k) {
      if k in t.settled { assert SettledAt(t, s, k) && k.Before(m); }
    }
  }

  lemma WaitingIsOrderly(t: Task, s: Schedule, now: Moment, planned: Option<Moment>)
    requires Orderly(t, s)
    requires planned.Some? ==> s.Occurs(planned.value) && forall k | k in t.settled :: k.Before(planned.value)
    ensures Orderly(t.(clock := now, planned := planned), s)
  {
    forall k | k in t.settled ensures SettledAt(t.(clock := now, planned := planned), s, k) { assert SettledAt(t, s, k); }
  }

  lemma PlannedIsLater(t: Task, s: Schedule)
    requires Orderly(t, s) && t.planned.Some?
    ensures forall k | k in t.settled :: k.Before(t.planned.value)
  {
    forall k | k in t.settled ensures k.Before(t.planned.value) { assert SettledAt(t, s, k); }
  }

  lemma StartIsOrderly(t: Task, s: Schedule, window: nat, step: Step)
    requires s.Valid() && Orderly(t, s) && InTime(t, s, step) && step.Start?
    ensures Orderly(Next(t, s, window, step), s)
  {
    var m := PreviousCalendar(step.now, s);
    PreviousIsGreatest(step.now, s);
    forall k | k in t.settled ensures k.AtMost(m) && (k == m ==> LastRun(t.receipt) == Some(m.day)) {
      assert SettledAt(t, s, k);
      assert ReceiptTime(t, s).AtMost(m);
    }
    if CatchesUp(step.now, s, window, t.receipt) {
      RanIsOrderly(t, s, m, step.done, step.success, step.recorded);
    } else {
      WaitingIsOrderly(t, s, step.now, None);
    }
  }

  lemma StepIsOrderly(t: Task, s: Schedule, window: nat, step: Step)
    requires s.Valid() && Orderly(t, s) && InTime(t, s, step)
    ensures Orderly(Next(t, s, window, step), s)
  {
    match step
    case Start(_, _, _, _) => StartIsOrderly(t, s, window, step);
    case Plan(now) =>
      if t.planned.Some? {
        PlannedIsLater(t, s);
        WaitingIsOrderly(t, s, now, t.planned);
      } else {
        AWeekLater(now, s);
        WaitingIsOrderly(t, s, now, Some(PreviousCalendar(now, s).PlusDays(7)));
      }
    case Fire(now, done, success, recorded) =>
      if t.planned.Some? {
        PlannedIsLater(t, s);
        RanIsOrderly(t, s, t.planned.value, done, success, recorded);
      }
      WaitingIsOrderly(t, s, now, t.planned);
    case Stop => WaitingIsOrderly(t, s, t.clock, None);
  }

  predicate AllInTime(t: Task, s: Schedule, window: nat, steps: seq<Step>) {
    forall i | 0 <= i < |steps| :: InTime(Steps(t, s, window, steps[..i]), s, steps[i])
  }

  /** Any clock that goes back no further than that is careful throughout. */
  lemma {:induction false} InTimeRunsAreCareful(t: Task, s: Schedule, window: nat, steps: seq<Step>)
    requires s.Valid() && Orderly(t, s) && AllInTime(t, s, window, steps)
    ensures Orderly(Steps(t, s, window, steps), s) && AllCareful(t, s, window, steps)
  {
    if steps != [] {
      var front, last := steps[..|steps| - 1], steps[|steps| - 1];
      assert forall i | 0 <= i <= |front| :: front[..i] == steps[..i];
      InTimeRunsAreCareful(t, s, window, front);
      var u := Steps(t, s, window, front);
      assert InTime(u, s, last);
      InTimeIsCareful(u, s, window, last);
      StepIsOrderly(u, s, window, last);
      forall i | 0 <= i < |steps| ensures Careful(Steps(t, s, window, steps[..i]), window, steps[i]) {
        if i < |front| { assert Careful(Steps(t, s, window, front[..i]), window, front[i]); }
      }
    }
  }

  /** The clock does not go back, and runs do not end before they begin. */
  predicate Forward(t: Task, step: Step) {
    t.clock.AtMost(StepTime(t, step)) && (step.Start? || step.Fire? ==> step.now.AtMost(step.done))
  }

  /** What has run is past. */
  predicate Past(t: Task, s: Schedule) {
    && (t.receipt.Some? ==> ReceiptTime(t, s).AtMost(t.clock))
    && forall m | m in t.settled :: m.AtMost(t.clock)
  }

  lemma ForwardIsInTime(t: Task, s: Schedule, window: nat, step: Step)
    requires s.Valid() && Orderly(t, s) && Past(t, s) && Forward(t, step)
    ensures InTime(t, s, step) && Past(Next(t, s, window, step), s)
  {
    if step.Start? { PreviousIsGreatest(step.now, s); }
  }

  predicate AllForward(t: Task, s: Schedule, window: nat, steps: seq<Step>) {
    forall i | 0 <= i < |steps| :: Forward(Steps(t, s, window, steps[..i]), steps[i])
  }

  /** In particular a clock that never goes back is in time. */
  lemma {:induction false} ForwardRunsAreInTime(t: Task, s: Schedule, window: nat, steps: seq<Step>)
    requires s.Valid() && Orderly(t, s) && Past(t, s) && AllForward(t, s, window, steps)
    ensures Orderly(Steps(t, s, window, steps), s) && Past(Steps(t, s, window, steps), s)
    ensures AllInTime(t, s, window, steps)
  {
    if steps != [] {
      var front, last := steps[..|steps| - 1], steps[|steps| - 1];
      assert forall i | 0 <= i <= |front| :: front[..i] == steps[..i];
      ForwardRunsAreInTime(t, s, window, front);
      assert Forward(Steps(t, s, window, front), last);
      ForwardIsInTime(Steps(t, s, window, front), s, window, last);
      StepIsOrderly(Steps(t, s, window, front), s, window, last);
      forall i | 0 <= i < |steps| ensures InTime(Steps(t, s, window, steps[..i]), s, steps[i]) {
        if i < |front| { assert InTime(Steps(t, s, window, front[..i]), s, front[i]); }
      }
    }
  }

  /** A task that never ran is in order, whatever its schedule. */
  lemma FreshIsOrderly(clock: Moment, s: Schedule)
    ensures Orderly(Fresh(clock), s) && Past(Fresh(clock), s)
  {}

  // ---- Clocks that are not ----------------------------------------------------------------

  /** A thread that stopped runs nothing until it has started or planned again. */
  lemma StoppedRunsNothing(t: Task, s: Schedule, window: nat, now: Moment, done: Moment, success: bool, recorded: bool)
    ensures var stopped := Next(t, s, window, Stop);
            Next(stopped, s, window, Fire(now, done, success, recorded)) == stopped.(clock := now)
    ensures Next(t, s, window, Stop) == t.(planned := None)
  {}

  /** A run at the planned time leaves its receipt; one that cannot be written leaves the old one. */
  lemma FireRuns(t: Task, s: Schedule, window: nat, now: Moment, done: Moment, success: bool, recorded: bool)
    requires t.planned.Some? && t.planned.value.AtMost(now)
    ensures var m := t.planned.value;
            Next(t, s, window, Fire(now, done, success, recorded))
            == Task(done, None, if recorded then Some(Receipt(m.day, success)) else t.receipt, t.runs + [m],
                    if recorded && success then t.settled + {m} else t.settled)
  {}

  /** Waiting for an occurrence from a moment that leads to it, and running it when it comes. */
  function Waited(t: Task, s: Schedule, window: nat, from: Moment, m: Moment, success: bool): Task {
    Next(Next(t, s, window, Plan(from)), s, window, Fire(m, m, success, true))
  }

  lemma WaitedRuns(t: Task, s: Schedule, window: nat, from: Moment, m: Moment, success: bool)
    requires s.Valid() && s.Occurs(m) && LeadsTo(from, m) && t.planned.None?
    ensures Waited(t, s, window, from, m, success)
            == Task(m, None, Some(Receipt(m.day, success)), t.runs + [m], if success then t.settled + {m} else t.settled)
  {
    PlanIff(t, s, window, from, m);
  }

  /** Whatever the schedule: if the clock goes back before a recorded success, the thread runs it again. */
  lemma RewoundClockRepeats(s: Schedule, window: nat, from: Moment, m: Moment)
    requires s.Valid() && s.Occurs(m) && LeadsTo(from, m)
    ensures var ran := Waited(Fresh(from), s, window, from, m, true);
            && ran.settled == {m} && !Careful(ran, window, Plan(from))
            && Waited(ran, s, window, from, m, true).runs == [m, m]
  {
    WaitedRuns(Fresh(from), s, window, from, m, true);
    WaitedRuns(Waited(Fresh(from), s, window, from, m, true), s, window, from, m, true);
  }

  /**
   It is not enough that no reading precedes the last recorded success: once a later run has failed,
   its receipt hides the success from a start whose clock reads a time in between.
   */
  lemma FailedReceiptRepeats(s: Schedule, window: nat, from: Moment, m: Moment)
    requires s.Valid() && s.Occurs(m) && LeadsTo(from, m) && window > 0
    ensures var ran := Waited(Fresh(from), s, window, from, m, true);
            var failed := Waited(ran, s, window, m, m.PlusDays(7), false);
            && failed.settled == {m} && LastRun(failed.receipt) == None
            && Next(failed, s, window, Start(m, m, true, true)).runs == [m, m.PlusDays(7), m]
  {
    var ran := Waited(Fresh(from), s, window, from, m, true);
    WaitedRuns(Fresh(from), s, window, from, m, true);
    WaitedRuns(ran, s, window, m, m.PlusDays(7), false);
    StartIff(Waited(ran, s, window, m, m.PlusDays(7), false), s, window, Start(m, m, true, true), m);
  }

  // ---- The thread of one task -----------------------------------------------------------

  class CalendarTask {
    const schedule: Schedule
    const window: nat
    var clock: Moment
    var planned: Option<Moment>
    var receipt: Option<Receipt>
    ghost var runs: seq<Moment>
    ghost var settled: set<Moment>

    constructor (schedule: Schedule, window: nat, clock: Moment)
      ensures this.schedule == schedule && this.window == window && State() == Fresh(clock)
    {
      this.schedule, this.window, this.clock := schedule, window, clock;
      planned, receipt, runs, settled := None, None, [], {};
    }

    ghost function State(): Task
      reads this
    {
      Task(clock, planned, receipt, runs, settled)
    }

    /** Runs the task for an occurrence and writes the receipt, if that works. */
    method RunFor(occurrence: Moment, done: Moment, success: bool, recorded: bool)
      modifies this
      ensures State() == Ran(old(State()), occurrence, done, success, recorded)
    {
      runs := runs + [occurrence];
      if recorded {
        receipt := Some(Receipt(occurrence.day, success));
        if success { settled := settled + {occurrence}; }
      }
      clock, planned := done, None;
    }

    /** A restart: at most the previous occurrence is caught up on, and only inside the window. */
    method Start(now: Moment, done: Moment, success: bool, recorded: bool) returns (ran: bool)
      requires schedule.Valid()
      modifies this
      ensures State() == Next(old(State()), schedule, window, Step.Start(now, done, success, recorded))
      ensures ran ==> 0 <= now.Since(PreviousCalendar(now, schedule)) <= window
                      && LastRun(old(receipt)) != Some(PreviousCalendar(now, schedule).day)
      ensures runs == old(runs) + if ran then [PreviousCalendar(now, schedule)] else []
    {
      PreviousIsGreatest(now, schedule);
      var scheduled := PreviousCalendar(now, schedule);
      ran := window > 0 && scheduled.AtMost(now) && now.Since(scheduled) <= window && LastRun(receipt) != Some(scheduled.day);
      if ran {
        RunFor(scheduled, done, success, recorded);
      } else {
        clock, planned := now, None;
      }
    }

    method Plan(now: Moment)
      requires schedule.Valid()
      modifies this
      ensures State() == Next(old(State()), schedule, window, Step.Plan(now))
    {
      clock := now;
      if planned.None? {
        var next := NextCalendar(now, schedule);
        planned := Some(next);
      }
    }

    /** False while the planned moment has not come. */
    method Fire(now: Moment, done: Moment, success: bool, recorded: bool) returns (ran: bool)
      modifies this
      ensures State() == Next(old(State()), schedule, window, Step.Fire(now, done, success, recorded))
      ensures ran <==> old(planned).Some? && old(planned).value.AtMost(now)
    {
      ran := planned.Some? && planned.value.AtMost(now);
      if ran {
        RunFor(planned.value, done, success, recorded);
      } else {
        clock := now;
      }
    }
  }
}
