/**
 * The HR attendance register for one day (src/app/admin/attendance/page.tsx):
 * one row per user matching the search, with that user's record for the
 * selected day, and the buttons moving the day back and forth.
 */
module AdminAttendance {
  import opened Wrappers
  import opened Text
  import opened Domain
  import opened Dates
  import Seqs
  import EmployeeStatus

  /** A user and the user's record for the day, if any. */
  datatype Row = Row(user: User, record: Option<Attendance>)

  /** The search box: the name or the employee id holds the query, ignoring case; e-mail is not searched. */
  predicate UserMatches(u: User, query: string) {
    MatchesQuery(u.fullName, query) || MatchesQuery(u.employeeId, query)
  }

  function RowOf(attendance: seq<Attendance>, day: string, u: User): Row {
    Row(u, EmployeeStatus.TodayRecord(attendance, u.id, day))
  }

  /** The users the register lists, in `users` order. */
  function Listed(users: seq<User>, query: string): (r: seq<User>)
    ensures forall u :: u in r <==> u in users && UserMatches(u, query)
  {
    Seqs.Filter(users, (u: User) => UserMatches(u, query))
  }

  /**
   * `filteredAttendance`: map every user to a row, then keep the rows whose
   * user matches. `day` is the selected date as `YYYY-MM-DD`.
   */
  function Rows(users: seq<User>, attendance: seq<Attendance>, day: string, query: string): (rows: seq<Row>)
    ensures var listed := Listed(users, query);
      && |rows| == |listed|
      && forall i :: 0 <= i < |rows| ==> rows[i] == Row(listed[i], EmployeeStatus.TodayRecord(attendance, listed[i].id, day))
  {
    Seqs.FilterMap(users, (u: User) => RowOf(attendance, day, u), (row: Row) => UserMatches(row.user, query),
                   (u: User) => UserMatches(u, query));
    Seqs.Filter(Seqs.Map(users, (u: User) => RowOf(attendance, day, u)), (row: Row) => UserMatches(row.user, query))
  }

  /** With an empty search every user has a row, in order. */
  lemma EmptySearchListsEveryone(users: seq<User>, attendance: seq<Attendance>, day: string)
    ensures |Rows(users, attendance, day, "")| == |users|
    ensures forall i :: 0 <= i < |users| ==> Rows(users, attendance, day, "")[i].user == users[i]
  {
    forall i | 0 <= i < |users| ensures UserMatches(users[i], "") {
      EmptyQueryMatches(users[i].fullName);
    }
    Seqs.FilterAll(users, (u: User) => UserMatches(u, ""));
  }

  /** A row shows a record only for a user who has one dated that day, and then the first such record. */
  lemma RowRecordIsFirstOfDay(users: seq<User>, attendance: seq<Attendance>, day: string, query: string, i: nat, k: nat)
    requires i < |Rows(users, attendance, day, query)|
    requires var u := Rows(users, attendance, day, query)[i].user;
      k < |attendance| && attendance[k].userId == u.id && attendance[k].date == day
      && forall j :: 0 <= j < k ==> !(attendance[j].userId == u.id && attendance[j].date == day)
    ensures Rows(users, attendance, day, query)[i].record == Some(attendance[k])
  {
    var u := Rows(users, attendance, day, query)[i].user;
    Seqs.FindFirst(attendance, (a: Attendance) => a.userId == u.id && a.date == day, k);
  }

  /** The selected day. */
  class DayView {
    var selectedDate: Date

    predicate Shows() reads this {
      Valid(selectedDate)
    }

    constructor(today: Date)
      requires Valid(today)
      ensures selectedDate == today && Shows()
    {
      selectedDate := today;
    }

    /** `prevDay`: the calendar day before. */
    method PrevDay()
      requires Shows()
      modifies this
      ensures Shows() && DayNumber(selectedDate) == DayNumber(old(selectedDate)) - 1
      ensures Dates.NextDay(selectedDate) == old(selectedDate)
    {
      PrevDayNumber(selectedDate);
      selectedDate := Dates.PrevDay(selectedDate);
    }

    /** `nextDay`: the calendar day after. */
    method NextDay()
      requires Shows()
      modifies this
      ensures Shows() && DayNumber(selectedDate) == DayNumber(old(selectedDate)) + 1
    {
      NextDayNumber(selectedDate);
      selectedDate := Dates.NextDay(selectedDate);
    }
  }
}
