/**
 * The employee's monthly attendance (src/app/attendance/page.tsx): the
 * month's records newest first, the month's statistics, moving between
 * months, and the hours column's `HH:MM` rendering. Months are 1..12 here
 * where the page's `getMonth()` counts 0..11.
 */
module AttendancePage {
  import opened Wrappers
  import opened Text
  import opened Domain
  import opened Dates
  import Seqs

  // ---------------------------------------------------------------- the month's records

  /** The signed-in user's record dated in the given month of the given year. */
  predicate InMonth(a: Attendance, user: Option<User>, year: int, month: int) {
    var d := ParseIso(a.date);
    user.Some? && a.userId == user.value.id && d.Some? && d.value.year == year && d.value.month == month
  }

  /** The date's time value in days, which the sort compares; records that reach the sort all have one. */
  function DateKey(a: Attendance): int {
    var d := ParseIso(a.date);
    if d.Some? then DayNumber(d.value) else 0
  }

  /** Each record is at least as new as the next one. */
  predicate NewestFirst(xs: seq<Attendance>) {
    forall i :: 0 <= i < |xs| - 1 ==> DateKey(xs[i]) >= DateKey(xs[i + 1])
  }

  /** Newest first between neighbours is newest first between any two records. */
  lemma {:induction false} NewestFirstPairs(xs: seq<Attendance>)
    requires NewestFirst(xs)
    ensures forall i, j :: 0 <= i < j < |xs| ==> DateKey(xs[i]) >= DateKey(xs[j])
  {
    if |xs| > 1 {
      NewestFirstPairs(xs[1..]);
      assert forall j :: 1 <= j < |xs| ==> DateKey(xs[0]) >= DateKey(xs[1]) >= DateKey(xs[j]) by {
        forall j | 2 <= j < |xs| ensures DateKey(xs[1]) >= DateKey(xs[j]) {
          assert xs[1..][0] == xs[1] && xs[1..][j - 1] == xs[j];
        }
      }
    }
  }

  /** Put `x` before the first record that is not newer, so equal dates keep their order. */
  function Insert(x: Attendance, xs: seq<Attendance>): (r: seq<Attendance>)
    requires NewestFirst(xs)
    ensures NewestFirst(r)
    ensures multiset(r) == multiset(xs) + multiset{x}
    ensures |r| == |xs| + 1 && (r[0] == x || (xs != [] && r[0] == xs[0]))
  {
    if xs == [] || DateKey(xs[0]) <= DateKey(x) then [x] + xs
    else
      assert xs == [xs[0]] + xs[1..];
      [xs[0]] + Insert(x, xs[1..])
  }

  /** `.sort((a, b) => time(b) - time(a))`: newest first, stable. */
  function SortNewestFirst(xs: seq<Attendance>): (r: seq<Attendance>)
    ensures NewestFirst(r)
    ensures multiset(r) == multiset(xs)
  {
    if xs == [] then []
    else
      assert xs == [xs[0]] + xs[1..];
      Insert(xs[0], SortNewestFirst(xs[1..]))
  }

  /** `monthAttendance`: exactly the user's records of the month, each as often as stored, newest first. */
  function MonthAttendance(attendance: seq<Attendance>, user: Option<User>, year: int, month: int): (r: seq<Attendance>)
    ensures forall i, j :: 0 <= i < j < |r| ==> DateKey(r[i]) >= DateKey(r[j])
    ensures multiset(r) == multiset(Seqs.Filter(attendance, (a: Attendance) => InMonth(a, user, year, month)))
    ensures forall a :: a in r <==> a in attendance && InMonth(a, user, year, month)
  {
    var mine := Seqs.Filter(attendance, (a: Attendance) => InMonth(a, user, year, month));
    var r := SortNewestFirst(mine);
    NewestFirstPairs(r);
    assert forall a :: a in r <==> a in multiset(mine);
    r
  }

  // ---------------------------------------------------------------- statistics

  function PresentCount(monthAttendance: seq<Attendance>): (n: nat)
    ensures n <= |monthAttendance|
  {
    |Seqs.Filter(monthAttendance, (a: Attendance) => a.status == AttendanceStatus.Present)|
  }

  /**
   * A request the leave statistic counts: the user's, approved, starting in
   * the given month. The year is not looked at.
   */
  predicate CountedLeave(r: LeaveRequest, user: Option<User>, month: int) {
    var d := ParseIso(r.fromDate);
    user.Some? && r.userId == user.value.id && r.status == Approved && d.Some? && d.value.month == month
  }

  /**
   * The leave statistic: `filter(...).reduce((acc, r) => acc + r.days, 0)`
   * over the counted requests, where an unknown day count (NaN) makes the
   * sum unknown.
   */
  function LeaveDays(leaveRequests: seq<LeaveRequest>, user: Option<User>, month: int): Option<nat> {
    if leaveRequests == [] then Some(0)
    else
      var front, last := LeaveDays(leaveRequests[..|leaveRequests| - 1], user, month), leaveRequests[|leaveRequests| - 1];
      if !CountedLeave(last, user, month) then front
      else if front.Some? && last.days.Some? then Some(front.value + last.days.value)
      else None
  }

  /** The sum is unknown exactly when a counted request has an unknown day count. */
  lemma {:induction false} LeaveDaysUnknown(leaveRequests: seq<LeaveRequest>, user: Option<User>, month: int)
    ensures LeaveDays(leaveRequests, user, month).None? <==>
      exists i :: 0 <= i < |leaveRequests| && CountedLeave(leaveRequests[i], user, month) && leaveRequests[i].days.None?
  {
    if leaveRequests != [] {
      var front := leaveRequests[..|leaveRequests| - 1];
      LeaveDaysUnknown(front, user, month);
      assert forall i :: 0 <= i < |front| ==> front[i] == leaveRequests[i];
    }
  }

  /** Requests the statistic does not count leave it as it was. */
  lemma {:induction false} UncountedIgnored(leaveRequests: seq<LeaveRequest>, user: Option<User>, month: int, others: seq<LeaveRequest>)
    requires forall i :: 0 <= i < |others| ==> !CountedLeave(others[i], user, month)
    ensures LeaveDays(leaveRequests + others, user, month) == LeaveDays(leaveRequests, user, month)
    decreases |others|
  {
    if others == [] {
      assert leaveRequests + others == leaveRequests;
    } else {
      var front := others[..|others| - 1];
      assert (leaveRequests + others)[..|leaveRequests + others| - 1] == leaveRequests + front;
      UncountedIgnored(leaveRequests, user, month, front);
    }
  }

  /**
   * A new approved request of the user starting in the month adds its days
   * to the statistic, whichever year it starts in.
   */
  lemma CountedLeaveAdds(leaveRequests: seq<LeaveRequest>, user: User, month: int, r: LeaveRequest)
    requires CountedLeave(r, Some(user), month) && r.days.Some?
    ensures LeaveDays(leaveRequests, Some(user), month).Some? ==>
      LeaveDays(leaveRequests + [r], Some(user), month) == Some(LeaveDays(leaveRequests, Some(user), month).value + r.days.value)
  {
    assert (leaveRequests + [r])[..|leaveRequests|] == leaveRequests;
  }

  /** Weekend days: `getDay()` is 0 (Sunday) or 6 (Saturday). */
  predicate IsWeekend(weekday: int) {
    weekday == 0 || weekday == 6
  }

  /** The days 1..n of the month that fall on neither a Saturday nor a Sunday. */
  function WorkingDaysIn(year: int, month: int, n: nat): (r: nat)
    requires 1 <= month <= 12 && n <= DaysInMonth(year, month)
    ensures r <= n
  {
    if n == 0 then 0
    else WorkingDaysIn(year, month, n - 1) + (if IsWeekend(Weekday(Date(year, month, n))) then 0 else 1)
  }

  /** The statistics loop over the days of the month. */
  method WorkingDays(year: int, month: int) returns (count: nat)
    requires 1 <= month <= 12
    ensures count == WorkingDaysIn(year, month, DaysInMonth(year, month))
  {
    var days := DaysInMonth(year, month);
    count := 0;
    for i := 1 to days + 1
      invariant count == WorkingDaysIn(year, month, i - 1)
    {
      var day := Weekday(Date(year, month, i));
      if day != 0 && day != 6 {
        count := count + 1;
      }
    }
  }

  /** Day `x` counted from a Sunday is a working day. */
  predicate IsWorkday(x: int) {
    x % 7 != 0 && x % 7 != 6
  }

  function Worked(x: int): nat {
    if IsWorkday(x) then 1 else 0
  }

  /** The working days among `n` consecutive days, the first of them numbered `first`. */
  function Workdays(first: int, n: nat): (r: nat)
    ensures r <= n
  {
    if n == 0 then 0 else Workdays(first, n - 1) + Worked(first + n - 1)
  }

  lemma {:induction false} WorkdaysSplit(first: int, a: nat, b: nat)
    ensures Workdays(first, a + b) == Workdays(first, a) + Workdays(first + a, b)
    decreases b
  {
    if b > 0 {
      WorkdaysSplit(first, a, b - 1);
    }
  }

  /** Every week has five working days. */
  lemma WeekHasFiveWorkdays(first: int)
    ensures Workdays(first, 7) == 5
  {
    assert Workdays(first, 7) == Worked(first) + Worked(first + 1) + Worked(first + 2) + Worked(first + 3)
      + Worked(first + 4) + Worked(first + 5) + Worked(first + 6) by {
      assert Workdays(first, 2) == Worked(first) + Worked(first + 1);
      assert Workdays(first, 4) == Workdays(first, 2) + Worked(first + 2) + Worked(first + 3);
      assert Workdays(first, 6) == Workdays(first, 4) + Worked(first + 4) + Worked(first + 5);
    }
    SevenDaysFiveWorked(first);
  }

  /** Seven consecutive day numbers hit each weekday once, two of them weekend days. */
  lemma SevenDaysFiveWorked(first: int)
    ensures Worked(first) + Worked(first + 1) + Worked(first + 2) + Worked(first + 3)
      + Worked(first + 4) + Worked(first + 5) + Worked(first + 6) == 5
  {
    var r := first % 7;
    assert (first + 1) % 7 == (r + 1) % 7;
    assert (first + 2) % 7 == (r + 2) % 7;
    assert (first + 3) % 7 == (r + 3) % 7;
    assert (first + 4) % 7 == (r + 4) % 7;
    assert (first + 5) % 7 == (r + 5) % 7;
    assert (first + 6) % 7 == (r + 6) % 7;
  }

  /** The calendar's count is the count from the weekday of the first of the month. */
  lemma {:induction false} WorkingDaysFromFirst(year: int, month: int, n: nat)
    requires 1 <= month <= 12 && n <= DaysInMonth(year, month)
    ensures WorkingDaysIn(year, month, n) == Workdays(DayNumber(Date(year, month, 1)) + 6, n)
  {
    if n > 0 {
      WorkingDaysFromFirst(year, month, n - 1);
      assert Weekday(Date(year, month, n)) == (DayNumber(Date(year, month, 1)) + 6 + n - 1) % 7;
    }
  }

  /** Every month has between 20 and 23 working days. */
  lemma WorkingDaysBounds(year: int, month: int)
    requires 1 <= month <= 12
    ensures 20 <= WorkingDaysIn(year, month, DaysInMonth(year, month)) <= 23
  {
    var f, n := DayNumber(Date(year, month, 1)) + 6, DaysInMonth(year, month);
    WorkingDaysFromFirst(year, month, n);
    WorkdaysSplit(f, 0, 7);
    WorkdaysSplit(f, 7, 7);
    WorkdaysSplit(f, 14, 7);
    WorkdaysSplit(f, 21, 7);
    WorkdaysSplit(f, 28, n - 28);
    WeekHasFiveWorkdays(f);
    WeekHasFiveWorkdays(f + 7);
    WeekHasFiveWorkdays(f + 14);
    WeekHasFiveWorkdays(f + 21);
  }

  datatype MonthStats = MonthStats(present: nat, leaves: Option<nat>, workingDays: nat)

  /** `stats` for the month shown. */
  function StatsOf(attendance: seq<Attendance>, leaveRequests: seq<LeaveRequest>, user: Option<User>, year: int, month: int)
    : (s: MonthStats)
    requires 1 <= month <= 12
    ensures s.present <= |MonthAttendance(attendance, user, year, month)|
    ensures s.workingDays <= DaysInMonth(year, month)
  {
    MonthStats(PresentCount(MonthAttendance(attendance, user, year, month)), LeaveDays(leaveRequests, user, month),
               WorkingDaysIn(year, month, DaysInMonth(year, month)))
  }

  /** The leave statistic of a month is the same in every year. */
  lemma LeavesIgnoreYear(attendance: seq<Attendance>, leaveRequests: seq<LeaveRequest>, user: Option<User>,
                         year1: int, year2: int, month: int)
    requires 1 <= month <= 12
    ensures StatsOf(attendance, leaveRequests, user, year1, month).leaves == StatsOf(attendance, leaveRequests, user, year2, month).leaves
  {
  }

  // ---------------------------------------------------------------- the month shown

  class MonthView {
    var currentDate: Date

    predicate Shows() reads this {
      Valid(currentDate)
    }

    constructor(today: Date)
      requires Valid(today)
      ensures currentDate == today && Shows()
    {
      currentDate := today;
    }

    /** `prevMonth`: the first of the month before. */
    method PrevMonth()
      requires Shows()
      modifies this
      ensures Shows() && currentDate == PrevMonthStart(old(currentDate))
    {
      currentDate := PrevMonthStart(currentDate);
    }

    /** `nextMonth`: the first of the month after. */
    method NextMonth()
      requires Shows()
      modifies this
      ensures Shows() && currentDate == NextMonthStart(old(currentDate))
    {
      currentDate := NextMonthStart(currentDate);
    }

    /** `handleMonthChange` with one of the listed months: its first day, in the year shown. */
    method SelectMonth(month: int)
      requires Shows() && 1 <= month <= 12
      modifies this
      ensures Shows() && currentDate == Date(old(currentDate).year, month, 1)
    {
      currentDate := Date(currentDate.year, month, 1);
    }

    /** The statistics of the month shown, working days counted day by day. */
    method Stats(attendance: seq<Attendance>, leaveRequests: seq<LeaveRequest>, user: Option<User>) returns (s: MonthStats)
      requires Shows()
      ensures s == StatsOf(attendance, leaveRequests, user, currentDate.year, currentDate.month)
    {
      var days := WorkingDays(currentDate.year, currentDate.month);
      s := MonthStats(PresentCount(MonthAttendance(attendance, user, currentDate.year, currentDate.month)),
                      LeaveDays(leaveRequests, user, currentDate.month), days);
    }
  }

  // ---------------------------------------------------------------- hours

  /** `Math.round`: halves go up. */
  function RoundHalfUp(x: real): (n: int)
    ensures x - 0.5 < n as real <= x + 0.5
  {
    (x + 0.5).Floor
  }

  /** The hours and minutes `formatHours` shows: whole hours, then the rounded minutes of the rest, up to 60. */
  function HoursParts(hours: real): (p: (int, nat))
    ensures p.0 == hours.Floor && p.1 <= 60
    ensures (p.0 * 60 + p.1) as real - 0.5 <= hours * 60.0 < (p.0 * 60 + p.1) as real + 0.5
  {
    var h := hours.Floor;
    var m := RoundHalfUp((hours - h as real) * 60.0);
    (h, m)
  }

  /** `HH:MM`, each part padded to two characters. */
  function HoursClock(h: int, m: nat): string {
    PadStart(IntToDecimal(h), 2, '0') + ":" + PadStart(NatToDecimal(m), 2, '0')
  }

  /** `formatHours`: "-" when there is no value. */
  function FormatHours(hours: Option<real>): (s: string)
    ensures hours.None? <==> s == "-"
  {
    if hours.None? then "-" else HoursClock(HoursParts(hours.value).0, HoursParts(hours.value).1)
  }

  /** As written, just under two hours is shown as one hour and sixty minutes. */
  lemma FormatHoursSixtyMinutes()
    ensures HoursParts(1.999) == (1, 60)
    ensures FormatHours(Some(1.999)) == "01:60"
  {
    assert (1.999).Floor == 1;
    assert NatToDecimal(60) == "60" by {
      assert NatToDecimal(6) == "6";
    }
  }

  /** Minutes rounded first and then split, so that 60 minutes carry into the hour. */
  function CarriedParts(hours: real): (p: (int, nat))
    ensures p.1 < 60
    ensures (p.0 * 60 + p.1) as real - 0.5 <= hours * 60.0 < (p.0 * 60 + p.1) as real + 0.5
  {
    var total := RoundHalfUp(hours * 60.0);
    (total / 60, total % 60)
  }

  function FormatHoursCarried(hours: Option<real>): (s: string)
    ensures hours.None? <==> s == "-"
  {
    if hours.None? then "-" else HoursClock(CarriedParts(hours.value).0, CarriedParts(hours.value).1)
  }

  /**
   * The carried rendering differs from the one as written only where that
   * shows 60 minutes, and there it shows the next hour.
   */
  lemma CarriedAgrees(hours: real)
    ensures HoursParts(hours).1 < 60 ==> CarriedParts(hours) == HoursParts(hours)
    ensures HoursParts(hours).1 == 60 ==> CarriedParts(hours) == (HoursParts(hours).0 + 1, 0)
  {
    var (h, m) := HoursParts(hours);
    var total := RoundHalfUp(hours * 60.0);
    assert total == h * 60 + m;
  }

  lemma FormatHoursCarriedExample()
    ensures FormatHoursCarried(Some(1.999)) == "02:00"
  {
    assert CarriedParts(1.999) == (2, 0) by {
      CarriedAgrees(1.999);
      FormatHoursSixtyMinutes();
    }
  }
}
