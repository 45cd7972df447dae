/**
 * The employee's leave page (src/app/leave/page.tsx): the leave request
 * form and its day count, the user's requests by status, and the total
 * remaining balance.
 */
module LeavePage {
  import opened Wrappers
  import opened Domain
  import Utils
  import Seqs
  import Store

  /** The form; a leave type not yet chosen is `None` (the empty string in the source). */
  datatype LeaveForm = LeaveForm(leaveType: Option<LeaveType>, fromDate: string, toDate: string, reason: string)

  /** `days`: the inclusive day count once both dates are filled in, and 0 before. */
  function FormDays(form: LeaveForm): (d: Option<nat>)
    ensures form.fromDate == "" || form.toDate == "" ==> d == Some(0)
    ensures form.fromDate != "" && form.toDate != "" ==> d == Utils.CalculateDaysBetween(form.fromDate, form.toDate)
  {
    if form.fromDate != "" && form.toDate != "" then Utils.CalculateDaysBetween(form.fromDate, form.toDate) else Some(0)
  }

  predicate Complete(form: LeaveForm) {
    form.leaveType.Some? && form.fromDate != "" && form.toDate != "" && form.reason != ""
  }

  /** `job?.department || 'General'`. */
  function Department(jobDetails: map<Id, JobDetails>, userId: Id): (d: string)
    ensures d != ""
    ensures userId in jobDetails && jobDetails[userId].department != "" ==> d == jobDetails[userId].department
  {
    OrElse(if userId in jobDetails then Some(jobDetails[userId].department) else None, "General")
  }

  /** The request the form submits: pending, from the signed-in user, for the form's dates and reason. */
  function LeaveDraftOf(user: User, jobDetails: map<Id, JobDetails>, form: LeaveForm): (d: LeaveDraft)
    requires form.leaveType.Some?
    ensures d.status == Pending && d.userId == user.id && d.employeeName == user.fullName && d.employeeId == user.employeeId
    ensures d.department == Department(jobDetails, user.id) && d.days == FormDays(form)
    ensures d.adminRemarks.None? && d.updatedAt.None?
  {
    LeaveDraft(user.id, user.fullName, user.employeeId, Department(jobDetails, user.id), form.leaveType.value,
               form.fromDate, form.toDate, FormDays(form), form.reason, Pending, None, None)
  }

  /**
   * `handleSubmit`: an incomplete form submits nothing; a complete one
   * appends one pending request under `id`, applied at `now`.
   */
  method Submit(auth: Store.AuthStore, data: Store.DataStore, form: LeaveForm, id: Id, now: string)
    returns (submitted: bool)
    requires Complete(form) ==> auth.user.Some?
    modifies data
    ensures submitted <==> Complete(form)
    ensures !submitted ==> unchanged(data)
    ensures submitted ==>
      data.leaveRequests == old(data.leaveRequests) + [Store.LeaveFromDraft(LeaveDraftOf(auth.user.value, old(data.jobDetails), form), id, now)]
    ensures unchanged(data`users, data`profiles, data`jobDetails, data`attendance, data`leaveBalances, data`notifications)
  {
    if !Complete(form) {
      return false;
    }
    data.AddLeaveRequest(LeaveDraftOf(auth.user.value, data.jobDetails, form), id, now);
    submitted := true;
  }

  /** A complete form on readable dates asks for at least one day. */
  lemma SubmittedDaysPositive(form: LeaveForm)
    requires Complete(form) && Utils.CalculateDaysBetween(form.fromDate, form.toDate).Some?
    ensures FormDays(form).value >= 1
  {
  }

  // ---------------------------------------------------------------- the user's requests

  /** `userLeaveRequests`. */
  function UserRequests(leaveRequests: seq<LeaveRequest>, user: Option<User>): (r: seq<LeaveRequest>)
    ensures forall x :: x in r <==> x in leaveRequests && user.Some? && x.userId == user.value.id
  {
    Seqs.Filter(leaveRequests, (x: LeaveRequest) => user.Some? && x.userId == user.value.id)
  }

  function WithStatus(requests: seq<LeaveRequest>, status: LeaveStatus): (r: seq<LeaveRequest>)
    ensures forall x :: x in r <==> x in requests && x.status == status
  {
    Seqs.Filter(requests, (x: LeaveRequest) => x.status == status)
  }

  /** The pending, approved and rejected counts add up to the number of requests listed. */
  lemma StatusCountsPartition(requests: seq<LeaveRequest>)
    ensures |WithStatus(requests, Pending)| + |WithStatus(requests, Approved)| + |WithStatus(requests, Rejected)| == |requests|
  {
    Seqs.FilterPartition(requests, (x: LeaveRequest) => x.status == Pending,
      (x: LeaveRequest) => x.status == Approved, (x: LeaveRequest) => x.status == Rejected);
  }

  /** A submitted request shows up among the user's pending requests. */
  lemma SubmittedIsPending(leaveRequests: seq<LeaveRequest>, user: User, jobDetails: map<Id, JobDetails>,
                           form: LeaveForm, id: Id, now: string)
    requires Complete(form)
    ensures var r := Store.LeaveFromDraft(LeaveDraftOf(user, jobDetails, form), id, now);
      && WithStatus(UserRequests(leaveRequests + [r], Some(user)), Pending)
         == WithStatus(UserRequests(leaveRequests, Some(user)), Pending) + [r]
  {
    var r := Store.LeaveFromDraft(LeaveDraftOf(user, jobDetails, form), id, now);
    var u := Some(user);
    var mine := (x: LeaveRequest) => u.Some? && x.userId == u.value.id;
    var pending := (x: LeaveRequest) => x.status == Pending;
    assert Seqs.Filter([r], mine) == [r];
    assert Seqs.Filter([r], pending) == [r];
    Seqs.FilterAppend(leaveRequests, [r], mine);
    Seqs.FilterAppend(Seqs.Filter(leaveRequests, mine), [r], pending);
  }

  // ---------------------------------------------------------------- balance

  /** `totalBalance`: the paid, sick, casual and emergency days left; 0 with no balance on record. */
  function TotalBalance(leaveBalances: map<Id, LeaveBalance>, user: Option<User>): int {
    if user.Some? && user.value.id in leaveBalances then
      var b := leaveBalances[user.value.id];
      b.paid + b.sick + b.casual + b.emergency
    else 0
  }

  /** The total ignores unpaid leave, is 0 without a balance, and a new user starts with 35 days. */
  lemma TotalBalanceProperties(leaveBalances: map<Id, LeaveBalance>, user: User, unpaid: int)
    ensures user.id in leaveBalances ==>
      TotalBalance(leaveBalances[user.id := leaveBalances[user.id].(unpaid := unpaid)], Some(user)) == TotalBalance(leaveBalances, Some(user))
    ensures user.id !in leaveBalances ==> TotalBalance(leaveBalances, Some(user)) == 0
    ensures TotalBalance(leaveBalances, None) == 0
    ensures TotalBalance(leaveBalances[user.id := Store.NewLeaveBalance], Some(user)) == 35
  {
  }
}
