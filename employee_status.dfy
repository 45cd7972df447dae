/**
 * The daily status the employee list and the dashboard derive for a user
 * (`getEmployeeStatus`, written out identically on both pages): on leave when
 * an approved request covers today, otherwise present when today's first
 * attendance record has a check-in time, otherwise absent.
 */
module EmployeeStatus {
  import opened Wrappers
  import opened Domain
  import opened Dates
  import Seqs

  datatype DayStatus = OnLeave | Present | Absent

  /**
   * `new Date(from) <= new Date(today) && new Date(to) >= new Date(today)`:
   * an unreadable date is NaN, and every comparison with NaN is false.
   */
  predicate Covers(fromDate: string, toDate: string, today: string) {
    var f, t, d := ParseIso(fromDate), ParseIso(toDate), ParseIso(today);
    f.Some? && t.Some? && d.Some? && DayNumber(f.value) <= DayNumber(d.value) <= DayNumber(t.value)
  }

  predicate OnApprovedLeave(r: LeaveRequest, userId: Id, today: string) {
    r.userId == userId && r.status == Approved && Covers(r.fromDate, r.toDate, today)
  }

  /** Some approved request of the user covers today. */
  predicate OnLeaveIn(leaveRequests: seq<LeaveRequest>, userId: Id, today: string) {
    exists i :: 0 <= i < |leaveRequests| && OnApprovedLeave(leaveRequests[i], userId, today)
  }

  /** `attendance.find(a => a.userId === userId && a.date === today)`. */
  function TodayRecord(attendance: seq<Attendance>, userId: Id, today: string): (r: Option<Attendance>)
    ensures r.Some? ==> r.value in attendance && r.value.userId == userId && r.value.date == today
    ensures r.None? <==> forall i :: 0 <= i < |attendance| ==> !(attendance[i].userId == userId && attendance[i].date == today)
  {
    Seqs.Find(attendance, (a: Attendance) => a.userId == userId && a.date == today)
  }

  /** `record?.checkInTime` is truthy: present and not the empty string. */
  predicate CheckedIn(record: Option<Attendance>) {
    record.Some? && record.value.checkInTime.Some? && record.value.checkInTime.value != ""
  }

  function StatusOf(userId: Id, leaveRequests: seq<LeaveRequest>, attendance: seq<Attendance>, today: string): (s: DayStatus)
    ensures s == OnLeave <==> OnLeaveIn(leaveRequests, userId, today)
    ensures s == DayStatus.Present <==> !OnLeaveIn(leaveRequests, userId, today) && CheckedIn(TodayRecord(attendance, userId, today))
  {
    if Seqs.Find(leaveRequests, (r: LeaveRequest) => OnApprovedLeave(r, userId, today)).Some? then OnLeave
    else if CheckedIn(TodayRecord(attendance, userId, today)) then DayStatus.Present
    else DayStatus.Absent
  }

  /** Only approved requests matter: dropping every pending and rejected request leaves the status as it was. */
  lemma OnlyApprovedCount(userId: Id, leaveRequests: seq<LeaveRequest>, attendance: seq<Attendance>, today: string)
    ensures var approved := Seqs.Filter(leaveRequests, (r: LeaveRequest) => r.status == Approved);
      StatusOf(userId, approved, attendance, today) == StatusOf(userId, leaveRequests, attendance, today)
  {
    ApprovedLeaveKept(userId, leaveRequests, today);
  }

  /** A covering approved request survives the filter to approved requests, and the filter brings in none. */
  lemma ApprovedLeaveKept(userId: Id, leaveRequests: seq<LeaveRequest>, today: string)
    ensures OnLeaveIn(Seqs.Filter(leaveRequests, (r: LeaveRequest) => r.status == Approved), userId, today)
        <==> OnLeaveIn(leaveRequests, userId, today)
  {
    var approved := Seqs.Filter(leaveRequests, (r: LeaveRequest) => r.status == Approved);
    if OnLeaveIn(leaveRequests, userId, today) {
      var i :| 0 <= i < |leaveRequests| && OnApprovedLeave(leaveRequests[i], userId, today);
      assert leaveRequests[i] in approved;
      var j :| 0 <= j < |approved| && approved[j] == leaveRequests[i];
      assert OnApprovedLeave(approved[j], userId, today);
    }
    if OnLeaveIn(approved, userId, today) {
      var j :| 0 <= j < |approved| && OnApprovedLeave(approved[j], userId, today);
      assert approved[j] in leaveRequests;
      var i :| 0 <= i < |leaveRequests| && leaveRequests[i] == approved[j];
      assert OnApprovedLeave(leaveRequests[i], userId, today);
    }
  }

  /** A covering approved leave wins over any attendance, even a check-in recorded for today. */
  lemma LeaveTakesPrecedence(userId: Id, leaveRequests: seq<LeaveRequest>, attendance: seq<Attendance>, today: string, k: nat)
    requires k < |leaveRequests| && OnApprovedLeave(leaveRequests[k], userId, today)
    ensures StatusOf(userId, leaveRequests, attendance, today) == OnLeave
    ensures StatusOf(userId, leaveRequests, [], today) == OnLeave
  {
  }

  /** A leave request covers the days between its dates inclusive, and a one-day request covers exactly its day. */
  lemma CoversItsDays(fromDate: string, today: string)
    requires ParseIso(fromDate).Some? && ParseIso(today).Some?
    ensures Covers(fromDate, fromDate, today) <==> ParseIso(fromDate) == ParseIso(today)
  {
    var f, d := ParseIso(fromDate).value, ParseIso(today).value;
    DayNumberOrder(f, d);
  }
}
