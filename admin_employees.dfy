/**
 * The HR employee list (src/app/admin/employees/page.tsx): the searchable,
 * status-filtered list of users, and the dialog that adds an employee with
 * a generated employee id.
 */
module AdminEmployees {
  import opened Wrappers
  import opened Text
  import opened Domain
  import Dates
  import Seqs
  import Utils
  import opened EmployeeStatus
  import Store

  /** The status drop-down: "all", or one of the derived daily statuses. */
  datatype StatusFilter = AllStatuses | OnlyStatus(status: DayStatus)

  /** The search box: the case-insensitive query occurs in the name, the e-mail or the employee id. */
  predicate MatchesSearch(u: User, query: string) {
    MatchesQuery(u.fullName, query) || MatchesQuery(u.email, query) || MatchesQuery(u.employeeId, query)
  }

  predicate Listed(u: User, query: string, filter: StatusFilter,
                   leaveRequests: seq<LeaveRequest>, attendance: seq<Attendance>, today: string) {
    MatchesSearch(u, query) && (filter.AllStatuses? || StatusOf(u.id, leaveRequests, attendance, today) == filter.status)
  }

  /** `filteredUsers`: the listed users, in the order of `users`. */
  function FilteredUsers(users: seq<User>, query: string, filter: StatusFilter,
                         leaveRequests: seq<LeaveRequest>, attendance: seq<Attendance>, today: string): (r: seq<User>)
    ensures Seqs.IsSubsequence(r, users)
    ensures forall u :: u in r <==> u in users && Listed(u, query, filter, leaveRequests, attendance, today)
  {
    Seqs.Filter(users, (u: User) => Listed(u, query, filter, leaveRequests, attendance, today))
  }

  /** With no query and no status filter every user is listed, in order. */
  lemma EmptySearchListsEveryone(users: seq<User>, leaveRequests: seq<LeaveRequest>, attendance: seq<Attendance>, today: string)
    ensures FilteredUsers(users, "", AllStatuses, leaveRequests, attendance, today) == users
  {
    forall i | 0 <= i < |users| ensures Listed(users[i], "", AllStatuses, leaveRequests, attendance, today) {
      EmptyQueryMatches(users[i].fullName);
    }
    Seqs.FilterAll(users, (u: User) => Listed(u, "", AllStatuses, leaveRequests, attendance, today));
  }

  /** The three status filters split the search matches between them. */
  lemma StatusFiltersPartition(users: seq<User>, query: string, leaveRequests: seq<LeaveRequest>,
                               attendance: seq<Attendance>, today: string)
    ensures |FilteredUsers(users, query, OnlyStatus(OnLeave), leaveRequests, attendance, today)|
          + |FilteredUsers(users, query, OnlyStatus(DayStatus.Present), leaveRequests, attendance, today)|
          + |FilteredUsers(users, query, OnlyStatus(DayStatus.Absent), leaveRequests, attendance, today)|
         == |FilteredUsers(users, query, AllStatuses, leaveRequests, attendance, today)|
  {
    var all := FilteredUsers(users, query, AllStatuses, leaveRequests, attendance, today);
    var p := (u: User) => Listed(u, query, OnlyStatus(OnLeave), leaveRequests, attendance, today);
    var q := (u: User) => Listed(u, query, OnlyStatus(DayStatus.Present), leaveRequests, attendance, today);
    var s := (u: User) => Listed(u, query, OnlyStatus(DayStatus.Absent), leaveRequests, attendance, today);
    var m := (u: User) => Listed(u, query, AllStatuses, leaveRequests, attendance, today);
    FilterOfFilter(users, m, p);
    FilterOfFilter(users, m, q);
    FilterOfFilter(users, m, s);
    Seqs.FilterPartition(all, p, q, s);
  }

  /** Filtering the search matches by a narrower test is filtering by that test alone. */
  lemma {:induction false} FilterOfFilter(users: seq<User>, wide: User -> bool, narrow: User -> bool)
    requires forall u :: narrow(u) ==> wide(u)
    ensures Seqs.Filter(Seqs.Filter(users, wide), narrow) == Seqs.Filter(users, narrow)
  {
    if users != [] {
      FilterOfFilter(users[1..], wide, narrow);
    }
  }

  // ---------------------------------------------------------------- adding an employee

  datatype NewEmployeeForm = NewEmployeeForm(fullName: string, email: string, employeeId: string,
                                             department: string, position: string, phone: string)

  /** The users created in `year`, whose count numbers the next employee id. */
  function CreatedIn(users: seq<User>, year: int): (r: seq<User>)
    ensures forall u :: u in r <==> u in users && u.createdAt.year == year
  {
    Seqs.Filter(users, (u: User) => u.createdAt.year == year)
  }

  /** The id "Dayflow" gives the next employee of `today`'s year. */
  function NextEmployeeId(users: seq<User>, fullName: string, today: Dates.Date): string
    requires today.year >= 0
  {
    Utils.GenerateEmployeeId("Dayflow", fullName, today.year, |CreatedIn(users, today.year)| + 1)
  }

  /** The account the dialog creates: an active employee, created `today`, with no picture of its own. */
  function NewEmployee(users: seq<User>, form: NewEmployeeForm, newId: Id, today: Dates.Date): (u: User)
    requires today.year >= 0
    ensures u.id == newId && u.role == Employee && u.status == Active
    ensures u.fullName == form.fullName && u.email == form.email && u.createdAt == today
    ensures u.employeeId == NextEmployeeId(users, form.fullName, today)
  {
    User(newId, NextEmployeeId(users, form.fullName, today), form.email, form.fullName, Employee, Active, None, today)
  }

  function FormJobInfo(form: NewEmployeeForm): JobInfo {
    JobInfo(Some(form.department), Some(form.position), Some(form.phone))
  }

  /**
   * `handleAddEmployee`: nothing without a name and an e-mail; otherwise
   * `addUser` with the new employee and the form's job information.
   * `newId` is the random id, `today` the clock's date, `todayIso` the date
   * `addUser` reads for the joining date, `avatarIndex` the random avatar pick.
   */
  method AddEmployee(data: Store.DataStore, form: NewEmployeeForm, newId: Id, today: Dates.Date, todayIso: string, avatarIndex: nat)
    returns (added: bool)
    requires today.year >= 0 && avatarIndex < |Store.IndianAvatars|
    modifies data
    ensures added <==> form.fullName != "" && form.email != ""
    ensures !added ==> unchanged(data)
    ensures added ==> var u := NewEmployee(old(data.users), form, newId, today);
      && data.users == old(data.users) + [Store.WithAvatar(u, Store.IndianAvatars[avatarIndex])]
      && data.leaveBalances == old(data.leaveBalances)[newId := Store.NewLeaveBalance]
      && data.profiles == old(data.profiles)[newId := Store.NewProfile(u, Some(FormJobInfo(form)))]
      && data.jobDetails == old(data.jobDetails)[newId := Store.NewJobDetails(newId, Some(FormJobInfo(form)), todayIso)]
      && data.leaveRequests == old(data.leaveRequests) && data.attendance == old(data.attendance)
      && data.notifications == old(data.notifications)
  {
    if form.fullName == "" || form.email == "" {
      return false;
    }
    var u := NewEmployee(data.users, form, newId, today);
    data.AddUser(u, Some(FormJobInfo(form)), avatarIndex, todayIso);
    added := true;
  }

  /** Each employee added in a year gets the next serial: the count of that year's users plus one. */
  lemma SerialCountsThisYear(users: seq<User>, u: User, year: int)
    requires u.createdAt.year == year
    ensures |CreatedIn(users + [u], year)| == |CreatedIn(users, year)| + 1
  {
    Seqs.FilterAppend(users, [u], (v: User) => v.createdAt.year == year);
  }

  /**
   * Two employees added one after the other in the same year get different
   * ids, whatever their names, while the year has fewer than 9999 of them.
   */
  lemma SuccessiveIdsDiffer(users: seq<User>, first: NewEmployeeForm, second: NewEmployeeForm,
                            newId: Id, today: Dates.Date, picture: string)
    requires 1000 <= today.year <= 9999 && |CreatedIn(users, today.year)| + 2 <= 9999
    ensures var u := Store.WithAvatar(NewEmployee(users, first, newId, today), picture);
      NextEmployeeId(users, first.fullName, today) != NextEmployeeId(users + [u], second.fullName, today)
  {
    var u := Store.WithAvatar(NewEmployee(users, first, newId, today), picture);
    SerialCountsThisYear(users, u, today.year);
    var k := |CreatedIn(users, today.year)|;
    Utils.EmployeeIdsDistinct("Dayflow", first.fullName, second.fullName, today.year, k + 1, k + 2);
  }
}
