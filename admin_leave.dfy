/**
 * The HR leave review page (src/app/admin/leave/page.tsx): the filtered
 * request list, the counts by status, and the approve/reject dialog that
 * decides a request and notifies its employee.
 */
module AdminLeave {
  import opened Wrappers
  import opened Text
  import opened Domain
  import Seqs
  import Store
  import LeavePage

  datatype Action = Approve | Reject

  /** A drop-down filter: "all", or one value. */
  datatype Choice<T> = All | Only(value: T)

  predicate MatchesSearch(r: LeaveRequest, query: string) {
    MatchesQuery(r.employeeName, query) || MatchesQuery(r.employeeId, query)
  }

  predicate Shown(r: LeaveRequest, query: string, status: Choice<LeaveStatus>, kind: Choice<LeaveType>) {
    MatchesSearch(r, query) && (status.All? || r.status == status.value) && (kind.All? || r.leaveType == kind.value)
  }

  /** `filteredRequests`: the requests passing the search and both filters, in order. */
  function FilteredRequests(requests: seq<LeaveRequest>, query: string, status: Choice<LeaveStatus>, kind: Choice<LeaveType>)
    : (r: seq<LeaveRequest>)
    ensures Seqs.IsSubsequence(r, requests)
    ensures forall x :: x in r <==>
      x in requests && MatchesSearch(x, query) && (status.All? || x.status == status.value) && (kind.All? || x.leaveType == kind.value)
  {
    Seqs.Filter(requests, (x: LeaveRequest) => Shown(x, query, status, kind))
  }

  /** With an empty search and both filters on "all", every request is shown. */
  lemma NoFilterShowsAll(requests: seq<LeaveRequest>)
    ensures FilteredRequests(requests, "", All, All) == requests
  {
    forall i | 0 <= i < |requests| ensures Shown(requests[i], "", All, All) {
      EmptyQueryMatches(requests[i].employeeName);
    }
    Seqs.FilterAll(requests, (x: LeaveRequest) => Shown(x, "", All, All));
  }

  // ---------------------------------------------------------------- deciding

  /** Approve and reject are offered for pending requests only. */
  function OfferedActions(r: LeaveRequest): (actions: seq<Action>)
    ensures actions != [] <==> r.status == Pending
  {
    if r.status == Pending then [Reject, Approve] else []
  }

  function Verdict(action: Action): (s: LeaveStatus)
    ensures s != Pending
  {
    match action
    case Approve => Approved
    case Reject => Rejected
  }

  function VerdictWord(action: Action): string {
    match action
    case Approve => "approved"
    case Reject => "rejected"
  }

  /** The leave type as stored: `paid`, `sick`, `unpaid`, `casual`, `emergency`. */
  function TypeName(t: LeaveType): string {
    match t
    case Paid => "paid"
    case Sick => "sick"
    case Unpaid => "unpaid"
    case Casual => "casual"
    case Emergency => "emergency"
  }

  /** The update the dialog sends: the verdict and the remarks as typed, empty remarks included. */
  function Decision(action: Action, remarks: string): LeaveUpdate {
    NoLeaveFields.(status := Some(Verdict(action)), adminRemarks := Some(remarks))
  }

  /** The notification text; `formatDate` is the locale date formatter. */
  function NoticeMessage(r: LeaveRequest, action: Action, remarks: string, formatDate: string -> string): string {
    "Your " + TypeName(r.leaveType) + " leave request for " + formatDate(r.fromDate) + " - " + formatDate(r.toDate)
      + " has been " + VerdictWord(action) + "." + (if remarks != "" then " Note: " + remarks else "")
  }

  /** The unread leave notification for the request's employee. */
  function Notice(r: LeaveRequest, action: Action, remarks: string, formatDate: string -> string): (n: NotificationDraft)
    ensures n.userId == r.userId && n.kind == LeaveNotice && !n.isRead
  {
    NotificationDraft(r.userId, LeaveNotice,
      "Leave Request " + (match action case Approve => "Approved" case Reject => "Rejected"),
      NoticeMessage(r, action, remarks, formatDate), false)
  }

  /** The dialog's state: the request and action picked, and the remarks typed. */
  class LeaveReview {
    var selectedRequest: Option<LeaveRequest>
    var actionType: Option<Action>
    var adminRemarks: string

    constructor()
      ensures selectedRequest == None && actionType == None && adminRemarks == ""
    {
      selectedRequest := None;
      actionType := None;
      adminRemarks := "";
    }

    /** `handleAction`, reachable from the buttons a pending request shows. */
    method HandleAction(request: LeaveRequest, action: Action)
      requires action in OfferedActions(request)
      modifies this
      ensures selectedRequest == Some(request) && actionType == Some(action) && adminRemarks == ""
    {
      selectedRequest := Some(request);
      actionType := Some(action);
      adminRemarks := "";
    }

    /** The remarks box. */
    method SetRemarks(text: string)
      modifies this
      ensures adminRemarks == text
      ensures unchanged(`selectedRequest, `actionType)
    {
      adminRemarks := text;
    }

    /**
     * `confirmAction`: with a request and an action picked, decide the
     * request (stamped `now`) and put a notification in front under
     * `notificationId`; then clear the dialog. Otherwise do nothing.
     */
    method ConfirmAction(data: Store.DataStore, notificationId: Id, now: string, formatDate: string -> string)
      returns (done: bool)
      modifies this, data
      ensures done <==> old(selectedRequest).Some? && old(actionType).Some?
      ensures !done ==> unchanged(this) && unchanged(data)
      ensures done ==>
        var r, a, remarks := old(selectedRequest).value, old(actionType).value, old(adminRemarks);
        && data.leaveRequests == Store.UpdateLeaves(old(data.leaveRequests), r.id, Decision(a, remarks), now)
        && data.notifications == [Store.NotificationFromDraft(Notice(r, a, remarks, formatDate), notificationId, now)] + old(data.notifications)
        && selectedRequest == None && actionType == None && adminRemarks == ""
      ensures unchanged(data`users, data`profiles, data`jobDetails, data`attendance, data`leaveBalances)
    {
      if selectedRequest.None? || actionType.None? {
        return false;
      }
      var r, a := selectedRequest.value, actionType.value;
      data.UpdateLeaveRequest(r.id, Decision(a, adminRemarks), now);
      data.AddNotification(Notice(r, a, adminRemarks, formatDate), notificationId, now);
      selectedRequest := None;
      actionType := None;
      adminRemarks := "";
      done := true;
    }
  }

  /**
   * A decided request carries the verdict, the remarks and the time of the
   * decision, and offers no further action: pending is the only state with
   * a way out.
   */
  lemma DecisionIsFinal(requests: seq<LeaveRequest>, id: Id, action: Action, remarks: string, now: string, i: nat)
    requires i < |requests| && requests[i].id == id
    ensures var d := Store.UpdateLeaves(requests, id, Decision(action, remarks), now)[i];
      && d.status == Verdict(action) && d.adminRemarks == Some(remarks) && d.updatedAt == Some(now)
      && OfferedActions(d) == []
  {
  }

  /**
   * With distinct ids, deciding a pending request moves it from the pending
   * count to the count of its verdict.
   */
  lemma DecisionMovesCount(requests: seq<LeaveRequest>, k: nat, action: Action, remarks: string, now: string)
    requires k < |requests| && requests[k].status == Pending
    requires forall i, j :: 0 <= i < j < |requests| ==> requests[i].id != requests[j].id
    ensures var after := Store.UpdateLeaves(requests, requests[k].id, Decision(action, remarks), now);
      && |LeavePage.WithStatus(after, Pending)| == |LeavePage.WithStatus(requests, Pending)| - 1
      && |LeavePage.WithStatus(after, Verdict(action))| == |LeavePage.WithStatus(requests, Verdict(action))| + 1
  {
    var after := Store.UpdateLeaves(requests, requests[k].id, Decision(action, remarks), now);
    UpdateOnlyAt(requests, k, Decision(action, remarks), now);
    assert after[k].status == Verdict(action);
    Seqs.ReplaceCount(requests, k, after[k], (x: LeaveRequest) => x.status == Pending);
    Seqs.ReplaceCount(requests, k, after[k], (x: LeaveRequest) => x.status == Verdict(action));
  }

  /** With distinct ids, an update by the id at `k` changes the request at `k` only. */
  lemma UpdateOnlyAt(requests: seq<LeaveRequest>, k: nat, updates: LeaveUpdate, now: string)
    requires k < |requests|
    requires forall i, j :: 0 <= i < j < |requests| ==> requests[i].id != requests[j].id
    ensures var after := Store.UpdateLeaves(requests, requests[k].id, updates, now);
      after == requests[..k] + [after[k]] + requests[k + 1..]
  {
    Seqs.MapIfOnlyAt(requests, (r: LeaveRequest) => r.id == requests[k].id,
      (r: LeaveRequest) => MergeLeave(r, updates).(updatedAt := Some(now)), k);
  }
}
