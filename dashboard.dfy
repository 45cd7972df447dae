/**
 * The employee dashboard (src/app/dashboard/page.tsx): checking in and out
 * for today, and the one-person employee list. `today` is the ISO date the
 * page reads from the clock; the hour and minute of a check-in or
 * check-out are the clock's local time.
 */
module Dashboard {
  import opened Wrappers
  import opened Text
  import opened Domain
  import Utils
  import Seqs
  import Store
  import opened EmployeeStatus

  /** `todayAttendance`: the signed-in user's first record dated today; with nobody signed in there is none. */
  function TodayAttendance(attendance: seq<Attendance>, user: Option<User>, today: string): Option<Attendance> {
    if user.Some? then TodayRecord(attendance, user.value.id, today) else None
  }

  // ---------------------------------------------------------------- check-in

  function CheckInPatch(time: string): AttendanceUpdate {
    NoAttendanceFields.(checkInTime := Some(time))
  }

  function CheckInDraft(userId: Id, today: string, time: string): AttendanceDraft {
    AttendanceDraft(userId, today, Some(time), None, None, None, AttendanceStatus.Present)
  }

  /** The attendance after a check-in: today's record gets the time, or a present record is appended. */
  function CheckedInAttendance(attendance: seq<Attendance>, userId: Id, today: string, time: string, newId: Id): seq<Attendance> {
    var record := TodayRecord(attendance, userId, today);
    if record.Some? then Store.UpdateAttendances(attendance, record.value.id, CheckInPatch(time))
    else attendance + [Store.AttendanceFromDraft(CheckInDraft(userId, today, time), newId)]
  }

  /**
   * `handleCheckIn`: the time is recorded as `HH:MM`; today's record, if
   * there is one, gets it as its check-in time, and otherwise a present
   * record with that check-in time is appended under `newId`.
   */
  method CheckIn(auth: Store.AuthStore, data: Store.DataStore, today: string, hour: nat, minute: nat, newId: Id)
    returns (time: string)
    requires auth.user.Some? && hour < 24 && minute < 60
    modifies data
    ensures time == Utils.ClockText(hour, minute)
    ensures data.attendance == CheckedInAttendance(old(data.attendance), auth.user.value.id, today, time, newId)
    ensures unchanged(data`users, data`profiles, data`jobDetails, data`leaveRequests, data`leaveBalances, data`notifications)
  {
    time := Utils.ClockText(hour, minute);
    var record := TodayAttendance(data.attendance, auth.user, today);
    if record.Some? {
      data.UpdateAttendance(record.value.id, CheckInPatch(time));
    } else {
      data.AddAttendance(CheckInDraft(auth.user.value.id, today, time), newId);
    }
  }

  /** A check-in patch overwrites the check-in time and nothing else. */
  lemma CheckInPatchOnlySetsTime(a: Attendance, time: string)
    ensures MergeAttendance(a, CheckInPatch(time)) == a.(checkInTime := Some(time))
  {
  }

  /**
   * After a check-in the user counts as present today, unless an approved
   * leave covers today; the attendance grows by at most one record.
   */
  lemma CheckInMakesPresent(attendance: seq<Attendance>, leaveRequests: seq<LeaveRequest>, userId: Id, today: string,
                            hour: nat, minute: nat, newId: Id)
    requires hour < 24 && minute < 60
    ensures var after := CheckedInAttendance(attendance, userId, today, Utils.ClockText(hour, minute), newId);
      && |attendance| <= |after| <= |attendance| + 1
      && StatusOf(userId, leaveRequests, after, today) == (if OnLeaveIn(leaveRequests, userId, today) then OnLeave else DayStatus.Present)
  {
    var time := Utils.ClockText(hour, minute);
    Utils.ClockRoundTrip(hour, minute);
    CheckInRecorded(attendance, userId, today, time, newId);
  }

  /** Today's first record after a check-in carries the check-in time. */
  lemma CheckInRecorded(attendance: seq<Attendance>, userId: Id, today: string, time: string, newId: Id)
    ensures var record := TodayRecord(CheckedInAttendance(attendance, userId, today, time, newId), userId, today);
      record.Some? && record.value.checkInTime == Some(time)
  {
    var after := CheckedInAttendance(attendance, userId, today, time, newId);
    var record := TodayRecord(attendance, userId, today);
    var matches := (a: Attendance) => a.userId == userId && a.date == today;
    if record.Some? {
      var k :| 0 <= k < |attendance| && attendance[k] == record.value && matches(attendance[k])
        && forall j :: 0 <= j < k ==> !matches(attendance[j]);
      assert after[k] == attendance[k].(checkInTime := Some(time));
      assert forall j :: 0 <= j < k ==> !matches(after[j]);
      Seqs.FindFirst(after, matches, k);
    } else {
      var k := |attendance|;
      assert matches(after[k]);
      assert forall j :: 0 <= j < k ==> after[j] == attendance[j];
      Seqs.FindFirst(after, matches, k);
    }
  }

  // ---------------------------------------------------------------- check-out

  /** `Math.round(x * 10) / 10` on exact numbers: the nearest tenth, halves rounded up. */
  function RoundTenth(x: real): (r: real)
    ensures x - 0.05 < r <= x + 0.05
    ensures (r * 10.0).Floor as real == r * 10.0
  {
    ((x * 10.0 + 0.5).Floor as real) / 10.0
  }

  /** `checkInTime?.split(':').map(Number) || [9, 0]`: no check-in time reads as 09:00. */
  function CheckInReading(checkInTime: Option<string>): Option<(nat, nat)> {
    if checkInTime.None? then Some((9, 0)) else Utils.ReadClock(checkInTime.value)
  }

  /** The hours from the check-in reading to the check-out time, to the nearest tenth; `None` where the source computes NaN. */
  function HoursWorked(checkInTime: Option<string>, hour: nat, minute: nat): Option<real> {
    match CheckInReading(checkInTime)
    case Some((h, m)) => Some(RoundTenth((hour as real - h as real) + (minute as real - m as real) / 60.0))
    case None => None
  }

  function CheckOutPatch(time: string, hours: Option<real>): AttendanceUpdate {
    NoAttendanceFields.(checkOutTime := Some(time), totalHours := hours)
  }

  /** The attendance after a check-out: only today's record changes, and only its check-out time and hours. */
  function CheckedOutAttendance(attendance: seq<Attendance>, user: Option<User>, today: string, hour: nat, minute: nat): seq<Attendance> {
    var record := TodayAttendance(attendance, user, today);
    if record.Some? then
      Store.UpdateAttendances(attendance, record.value.id,
        CheckOutPatch(Utils.ClockText(hour, minute), HoursWorked(record.value.checkInTime, hour, minute)))
    else attendance
  }

  /** `handleCheckOut`: today's record, if any, gets the check-out time and the hours worked; then the user is logged out. */
  method CheckOut(auth: Store.AuthStore, data: Store.DataStore, today: string, hour: nat, minute: nat)
    returns (time: string)
    requires hour < 24 && minute < 60
    modifies auth, data
    ensures time == Utils.ClockText(hour, minute)
    ensures data.attendance == CheckedOutAttendance(old(data.attendance), old(auth.user), today, hour, minute)
    ensures unchanged(data`users, data`profiles, data`jobDetails, data`leaveRequests, data`leaveBalances, data`notifications)
    ensures auth.user == None && !auth.isAuthenticated
  {
    time := Utils.ClockText(hour, minute);
    var record := TodayAttendance(data.attendance, auth.user, today);
    if record.Some? {
      data.UpdateAttendance(record.value.id, CheckOutPatch(time, HoursWorked(record.value.checkInTime, hour, minute)));
    }
    auth.Logout();
  }

  /** Checking out after checking in at h:m yields the minutes between the two, in hours to the nearest tenth. */
  lemma HoursAfterCheckIn(h: nat, m: nat, hour: nat, minute: nat)
    requires h < 24 && m < 60
    ensures HoursWorked(Some(Utils.ClockText(h, m)), hour, minute)
         == Some(RoundTenth(((hour * 60 + minute) - (h * 60 + m)) as real / 60.0))
    ensures HoursWorked(None, hour, minute) == Some(RoundTenth(((hour * 60 + minute) - 540) as real / 60.0))
  {
    Utils.ClockRoundTrip(h, m);
  }

  /** A check-out patch overwrites the check-out time and, when they could be computed, the hours. */
  lemma CheckOutPatchFields(a: Attendance, time: string, hours: Option<real>)
    ensures var b := MergeAttendance(a, CheckOutPatch(time, hours));
      && b.checkOutTime == Some(time)
      && b.totalHours == (if hours.Some? then hours else a.totalHours)
      && b.(checkOutTime := a.checkOutTime, totalHours := a.totalHours) == a
  {
  }

  // ---------------------------------------------------------------- employees tab

  /** `filteredEmployees`: the signed-in user alone, if the name or employee id matches the search. */
  function DashboardEmployees(users: seq<User>, user: Option<User>, query: string): (r: seq<User>)
    ensures forall u :: u in r <==>
      u in users && user.Some? && u.id == user.value.id && (MatchesQuery(u.fullName, query) || MatchesQuery(u.employeeId, query))
  {
    var mine := Seqs.Filter(users, (u: User) => user.Some? && u.id == user.value.id);
    Seqs.Filter(mine, (u: User) => MatchesQuery(u.fullName, query) || MatchesQuery(u.employeeId, query))
  }
}
