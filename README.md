# Dayflow HR: a Dafny model of the data store, the helpers and the page rules

Dayflow is a small human-resources dashboard. Employees sign in, check in and
out, request leave and edit their profile. HR staff list employees, review
leave requests and look at the attendance of any day. Everything lives in two
client-side stores, `useAuthStore` (the signed-in user) and `useDataStore`
(users, profiles, job details, leave requests, attendance, leave balances and
notifications). The page handlers read and update those stores.

This project models that core in Dafny:

- `Store` (`store.dfy`) holds the two stores as classes, `AuthStore` and
  `DataStore`. Their fields are the store's slices. Every store action is a
  method that reassigns its slice and leaves the others unchanged. The list
  updates that actions perform (update by id, mark read) are functions with
  lemmas about them.
- `Domain` (`domain.dfy`) has the records of `src/lib/types.ts` and the
  `{ ...old, ...updates }` merges. Each optional field is an `Option`.
- `Utils` (`utils.dfy`) has the helpers of `src/lib/utils.ts`: time
  formatting, day counts, greeting, e-mail and password checks, password
  strength, account masking, initials and employee ids. `validatePassword`
  pushes onto an error list and `getPasswordStrength` bumps a score, each by
  a fixed series of steps with no loop. Their models are methods made of the
  same series of calls to one-step methods (`CheckRule`, `Award`), proved
  against specification functions.
- There is one module per page:
  - `AdminEmployees`, `Dashboard`, `LeavePage`, `AdminLeave`, `ProfilePage`,
    `SignIn`, `SignUp`, `AttendancePage` and `AdminAttendance`;
  - `EmployeeStatus` holds the present/on-leave/absent rule that two pages
    share.

  Page state that a handler mutates becomes a small class: the leave review
  dialog, the profile editor boxes, the month on show and the day on show.
- `Dates` is a proleptic Gregorian calendar with day numbers and
  `YYYY-MM-DD` parsing and formatting. It stands for what the pages do with
  JavaScript `Date`. `Text` holds the string helpers (case mapping, `trim`,
  `split`, `includes`, padding, decimals). `Seqs` holds filter, map and find
  over sequences with their laws. `Wrappers` has `Option`.

The clock, the random ids, the random avatar index and the ISO timestamps are
parameters of the operations that use them. A password is never compared
with anything, because the sign-in page never checks it; the model keeps
that. Other behaviours of the source that the model keeps:

- The monthly leave total on the attendance page matches the month and not
  the year (`LeavesIgnoreYear`).
- "Mark all as read" marks every user's notifications (`MarkAllReadIsUnscoped`).
- Approving leave never changes a leave balance.

## Model

| member | source | states |
|---|---|---|
| Store.AuthStore.constructor | src/lib/store.ts:18-19 | no one is signed in at the start |
| Store.AuthStore.Login | src/lib/store.ts:20 | the given user is stored and the session is authenticated |
| Store.AuthStore.Logout | src/lib/store.ts:21 | user cleared and session unauthenticated |
| Store.AuthStore.UpdateUser | src/lib/store.ts:22-24 | with a user signed in, the updates are merged over it; with none, it stays null; the authenticated flag is untouched |
| Store.WithAvatar | src/lib/store.ts:595-599 | a non-empty picture is kept, otherwise the picked avatar is used; every other field is unchanged |
| Store.NewProfile | src/lib/store.ts:607-627 | the new profile is complete, belongs to the user, carries the user's e-mail, empty skill and certification lists, and the phone from the job info or "" |
| Store.NewJobDetails | src/lib/store.ts:628-640 | job details for the user, joined today, department and position from the job info or "", full time |
| Store.JobInfoDefaults | src/lib/store.ts:615-633 | given job info fills department, position and phone; without it they are all empty |
| Store.DataStore.constructor | src/lib/store.ts:576-592 | the store starts with the given slices (the seed data is a parameter) |
| Store.DataStore.AddUser | src/lib/store.ts:594-642 | appends the user with its avatar; sets a leave balance of 15 paid, 10 sick, 0 unpaid, 7 casual and 3 emergency days, a fresh profile and fresh job details under its id; leaves requests, attendance and notifications alone |
| Store.DataStore.UpdateProfile | src/lib/store.ts:644-649 | the profile under the id becomes the stored profile (or nothing) merged with the update; no other slice changes |
| Store.UpdateProfileFields | src/lib/store.ts:644-649 | for a stored profile, every one of the twenty fields of the result is the update's field when given and the stored one otherwise; for an id with no profile, the result is the update itself |
| Domain.MergeProfileFields | src/lib/store.ts:647 | field by field, for all twenty fields, the spread merge takes the update's field when it is given and keeps the old one otherwise |
| Domain.MergeProfileLaws | src/lib/store.ts:647 | merging nothing is the identity, merging twice equals merging once, and merging over nothing yields the update |
| Store.DataStore.AddLeaveRequest | src/lib/store.ts:651-656 | appends the draft with the new id and applied time; nothing else changes |
| Store.Stamped | src/lib/store.ts:660 | the update gains the time of the change and keeps all its other fields |
| Store.UpdateLeaves | src/lib/store.ts:658-662 | same length; the requests with the id are merged with the stamped update, the others are untouched |
| Store.DataStore.UpdateLeaveRequest | src/lib/store.ts:658-662 | the request list becomes UpdateLeaves of the old list; nothing else changes |
| Store.UpdatedLeaveIsStamped | src/lib/store.ts:658-662 | an updated request carries the new time, the new status when one is given, and its old status otherwise |
| Store.UpdateLeavesIdempotent | src/lib/store.ts:658-662 | applying the same update twice equals applying it once |
| Domain.MergeLeaveIdempotent | src/lib/store.ts:660 | merging a leave update twice equals merging it once |
| Store.DataStore.AddAttendance | src/lib/store.ts:664-666 | appends the record with the new id; nothing else changes |
| Store.UpdateAttendances | src/lib/store.ts:668-672 | same length; records with the id are merged with the update, the others are untouched |
| Store.DataStore.UpdateAttendance | src/lib/store.ts:668-672 | the attendance list becomes UpdateAttendances of the old list; nothing else changes |
| Store.UpdateUnknownIdIsNoOp | src/lib/store.ts:658-678 | an update or mark-read by an id that no element has leaves the list as it was |
| Store.MarkRead | src/lib/store.ts:674-678 | same length; the notifications with the id become read and the others stay as they were |
| Store.DataStore.MarkNotificationRead | src/lib/store.ts:674-678 | notifications become MarkRead of the old list; nothing else changes |
| Store.MarkReadProperties | src/lib/store.ts:674-678 | marking read is idempotent, and a notification is read afterwards iff it was read before or has the id |
| Store.MarkAllRead | src/lib/store.ts:680-682 | same length; every notification becomes read, the rest of it unchanged |
| Store.DataStore.MarkAllNotificationsRead | src/lib/store.ts:680-682 | notifications become MarkAllRead of the old list; nothing else changes |
| Store.MarkAllReadIsUnscoped | src/lib/store.ts:680-682 | after "mark all", no user has an unread notification: the action is not limited to the signed-in user |
| Store.DataStore.AddNotification | src/lib/store.ts:684-689 | the notification, with its id and creation time, goes in front; nothing else changes |
| Utils.ClockRoundTrip | src/app/dashboard/page.tsx:63 | the five-character `HH:MM` clock text reads back as the hour and minute it was made from |
| Utils.TwelveHour | src/lib/utils.ts:26-27 | the displayed hour is 1..12, PM iff the hour is at least 12, and together they give back the 24-hour hour |
| Utils.FormatTime | src/lib/utils.ts:24-29 | a result exists iff the text reads as `hours:minutes` |
| Utils.FormatReadsBack | src/lib/utils.ts:24-29 | the formatted time ends in " PM" iff the hour is 12 or later, else " AM"; the rest reads back as the hour on the 12-hour dial (12 for 0 and 12) and the same minutes; minutes below 100 take exactly two places after the colon |
| Utils.FormatRecordedTime | src/lib/utils.ts:24-29 | a recorded check-in time formats as `h:MM AM/PM` of its hour and minute |
| Utils.ClockMinutes | src/lib/utils.ts:28 | the minutes follow the colon, padded to two digits |
| Utils.TwelveHourExamples | src/lib/utils.ts:26-27 | midnight shows 12 AM, noon 12 PM, 13:00 1 PM |
| Utils.CalculateDaysBetween | src/lib/utils.ts:39-45 | a count exists iff both dates parse, and it is at least 1 |
| Utils.DaysBetweenSteps | src/lib/utils.ts:39-45 | when the end date is `n` calendar steps (`NextDay`) after the start, the count is `n + 1`, in either order of the arguments |
| Utils.DaysBetweenSymmetric | src/lib/utils.ts:39-45 | the order of the two dates does not matter; a date to itself counts 1 |
| Utils.DaysBetweenAdditive | src/lib/utils.ts:39-45 | for a <= b <= c, days(a,c) + 1 = days(a,b) + days(b,c) (the shared day counts once) |
| Utils.DaysBetweenNextDay | src/lib/utils.ts:39-45 | moving the end date one day later adds one day |
| Utils.DaysBetweenExample | src/lib/utils.ts:39-45 | 2024-02-15 to 2024-02-17 counts 3 days |
| Utils.IsoExample | src/lib/utils.ts:39-45 | the two example dates format as written |
| Utils.Greeting | src/lib/utils.ts:47-52 | morning iff before 12, afternoon iff 12..16, evening iff 17 or later |
| Utils.IndexOf | src/lib/utils.ts:55 | finds the first occurrence of the character, or none iff it does not occur |
| Utils.ValidateEmailMatchesPattern | src/lib/utils.ts:54-57 | the direct check accepts exactly the strings that match `^[^\s@]+@[^\s@]+\.[^\s@]+$` |
| Utils.AcceptedHasMatch | src/lib/utils.ts:54-57 | an accepted address has a match of the pattern |
| Utils.MatchIsAccepted | src/lib/utils.ts:54-57 | a match of the pattern is accepted |
| Utils.ValidEmailShape | src/lib/utils.ts:54-57 | an accepted address has no whitespace and exactly one `@`, which is not at the start |
| Utils.FailedRules | src/lib/utils.ts:63-79 | the failed rules are exactly the rules the password breaks |
| Utils.NoFailedRules | src/lib/utils.ts:81-84 | no rule fails iff the password meets all five rules |
| Utils.FailedStep | src/lib/utils.ts:65-79 | checking one more rule appends it iff the password breaks it |
| Utils.MapSnoc | src/lib/utils.ts:63-79 | the message of an appended rule is appended to the messages |
| Utils.CheckRule | src/lib/utils.ts:65-79 | one `if` of the function: the error list grows by that rule's message iff the password breaks it |
| Utils.ValidatePassword | src/lib/utils.ts:59-85 | the errors are the messages of the broken rules in rule order; valid iff there are none iff every rule holds |
| Utils.CountMet | src/lib/utils.ts:94-99 | the score never exceeds the number of criteria |
| Utils.Award | src/lib/utils.ts:94-99 | one `if` of the function: the score grows by one iff the password meets that criterion |
| Utils.CountStep | src/lib/utils.ts:94-99 | the count over one more criterion adds one iff it is met |
| Utils.GetPasswordStrength | src/lib/utils.ts:87-104 | the score is the number of criteria met (at most 6), and the label follows from the score |
| Utils.StrengthOf | src/lib/utils.ts:101-103 | Weak iff the score is at most 2, Strong iff at least 5, Medium otherwise |
| Utils.ValidPasswordIsStrong | src/lib/utils.ts:59-104 | a password meeting every rule scores at least 5 and is Strong |
| Utils.StrongIsNotValid | src/lib/utils.ts:59-104 | Strong does not imply valid: "Abcdefghijk1" is Strong but has no special character |
| Utils.MaskBankAccount | src/lib/utils.ts:106-109 | up to 4 characters pass unchanged; longer ones become `XXXX XXXX ` and the last four |
| Utils.MaskIdempotent | src/lib/utils.ts:106-109 | masking twice equals masking once, and accounts with the same last four digits mask alike |
| Utils.FirstLettersOfWords | src/lib/utils.ts:116-119 | the joined first letters have one letter per non-empty word, in order |
| Utils.GetInitials | src/lib/utils.ts:115-122 | at most two letters: the upper-cased first letters of the first non-empty words |
| Utils.NamePrefix | src/lib/utils.ts:135-136 | two characters: the first two of the name upper-cased, padded with X |
| Utils.LastNameCases | src/lib/utils.ts:131-133 | a name without a space is its own last name; with one space the last name is the second word, also when more words follow; with two spaces in a row the second part is empty and the first word is used |
| Utils.EmployeeIdFields | src/lib/utils.ts:124-142 | the id is 14 characters: company, first- and last-name prefixes, the year, and the serial padded to four digits, each readable back |
| Utils.YearDigits | src/lib/utils.ts:138 | a four-digit year prints as four digits with its value |
| Utils.SerialDigits | src/lib/utils.ts:139 | a serial up to 9999 pads to four digits with its value |
| Utils.IdSlices | src/lib/utils.ts:141 | each part of the concatenated id sits at its fixed position |
| Utils.EmployeeIdsDistinct | src/lib/utils.ts:124-142 | same company and year with different serials (up to 9999) give different ids, whatever the names |
| Utils.EmployeeIdExample | src/lib/utils.ts:124-142 | Dayflow, "Jo Li", 2024, 7 gives DAJOLI20240007 |
| Utils.EmployeeIdExampleNames | src/lib/utils.ts:130-136 | the prefixes of the example are DA, JO and LI |
| Utils.EmployeeIdExampleDigits | src/lib/utils.ts:138-139 | the example prints 2024 and 0007 |
| Utils.EmployeeIdPaddedExample | src/lib/utils.ts:132-136 | a one-letter name pads both prefixes with X |
| Dates.DaysInMonth | src/lib/utils.ts:31-33 | a month has 28 to 31 days |
| Dates.DayNumberOrder | src/app/admin/employees/page.tsx:53 | comparing day numbers is comparing dates: smaller iff earlier, equal iff the same date |
| Dates.NextDay | src/app/admin/attendance/page.tsx:53-57 | the day after a valid date is valid |
| Dates.PrevDay | src/app/admin/attendance/page.tsx:47-51 | the day before a valid date is valid |
| Dates.NextDayNumber | src/app/admin/attendance/page.tsx:53-57 | the next day's number is one more |
| Dates.PrevDayNumber | src/app/admin/attendance/page.tsx:47-51 | the previous day's number is one less, and the next day of it is the date again |
| Dates.PrevMonthStart | src/app/attendance/page.tsx:49-51 | the first day of the previous month |
| Dates.NextMonthStart | src/app/attendance/page.tsx:53-55 | the first day of the next month |
| Dates.MonthStepsInverse | src/app/attendance/page.tsx:49-55 | going back a month and forward a month, in either order, lands on the first of the month |
| Dates.Weekday | src/lib/utils.ts:35-37 | a weekday is 0..6 |
| Dates.WeekdayAnchors | src/lib/utils.ts:35-37 | 1 January 2000 is a Saturday (6) and 15 February 2024 a Thursday (4), as `getDay` numbers them |
| Dates.WeekdayNext | src/lib/utils.ts:35-37 | the next calendar day has the next weekday, Saturday wrapping to Sunday (0) |
| Dates.AfterDaysNumber | src/lib/utils.ts:39-45 | `n` steps forward add `n` to the day number |
| Dates.ParseIso | src/lib/utils.ts:40-41 | a parsed date is a valid calendar date in years 0..9999 |
| Dates.ParseFormat | src/app/admin/attendance/page.tsx:32 | formatting a date as `YYYY-MM-DD` and parsing it back gives the date |
| Dates.FormatParse | src/app/admin/employees/page.tsx:58 | a string that parses is the formatted form of its date, so string equality is date equality |
| Text.LowerIdempotent | src/app/sign-in/page.tsx:27-28 | lower-casing twice is lower-casing once |
| Text.ContainsIff | src/app/admin/employees/page.tsx:65-67 | `includes` holds iff the needle occurs at some position |
| Text.EmptyQueryMatches | src/app/admin/employees/page.tsx:65-67 | the empty search matches every field |
| Text.SplitJoin | src/lib/utils.ts:117-119 | joining the split parts with the separator gives the string back |
| Text.TrimBetweenWhitespace | src/app/profile/page.tsx:33 | `trim` removes whitespace from both ends only |
| Text.DecimalRoundTrip | src/lib/utils.ts:138 | a number's decimal text reads back as the number |
| Seqs.Filter | src/app/admin/employees/page.tsx:64-72 | the kept elements satisfy the test and keep their order; an element that passes is kept as many times as it occurs, one that fails not at all |
| Seqs.Find | src/app/sign-in/page.tsx:26-29 | `find` returns the first element that passes, or none iff none passes |
| Seqs.MapIf | src/lib/store.ts:658-682 | the elements that pass are rewritten in place, the rest kept |
| EmployeeStatus.TodayRecord | src/app/admin/employees/page.tsx:57-59 | the record found is the user's record for today; none iff there is no such record |
| EmployeeStatus.StatusOf | src/app/admin/employees/page.tsx:50-62 | on leave iff an approved request covers today; present iff not on leave and today's record has a check-in; absent otherwise (the dashboard's copy, src/app/dashboard/page.tsx lines 104-116, is the same rule) |
| EmployeeStatus.OnlyApprovedCount | src/app/admin/employees/page.tsx:51-55 | pending and rejected requests never make anyone on leave |
| EmployeeStatus.ApprovedLeaveKept | src/app/admin/employees/page.tsx:51-55 | keeping only approved requests keeps the on-leave verdict |
| EmployeeStatus.LeaveTakesPrecedence | src/app/admin/employees/page.tsx:50-55 | approved leave covering today wins over any attendance record |
| EmployeeStatus.CoversItsDays | src/app/admin/employees/page.tsx:53 | a one-day leave covers exactly that day |
| AdminEmployees.FilteredUsers | src/app/admin/employees/page.tsx:64-72 | the list keeps the order, and a user is listed iff it matches the search and the status filter |
| AdminEmployees.EmptySearchListsEveryone | src/app/admin/employees/page.tsx:64-72 | empty search and "all" list every user in order |
| AdminEmployees.StatusFiltersPartition | src/app/admin/employees/page.tsx:69-71 | the on-leave, present and absent lists add up to the "all" list |
| AdminEmployees.FilterOfFilter | src/app/admin/employees/page.tsx:64-72 | filtering by a narrower test after a wider one equals filtering by the narrower one |
| AdminEmployees.CreatedIn | src/app/admin/employees/page.tsx:87-88 | a user is counted iff it was created in the year |
| AdminEmployees.NewEmployee | src/app/admin/employees/page.tsx:87-105 | an active employee with the form's name and e-mail, created today, with the next employee id of the year |
| AdminEmployees.AddEmployee | src/app/admin/employees/page.tsx:81-126 | added iff name and e-mail are filled in; then the store gains the user, its balance, profile and job details, and nothing else changes |
| AdminEmployees.SerialCountsThisYear | src/app/admin/employees/page.tsx:87-92 | each new user of the year raises the next serial by one |
| AdminEmployees.SuccessiveIdsDiffer | src/app/admin/employees/page.tsx:87-92 | two employees added one after the other in the same year get different ids |
| Dashboard.CheckIn | src/app/dashboard/page.tsx:61-78 | the time is the `HH:MM` clock; today's record gets it as check-in time, or a present record is appended |
| Dashboard.CheckInPatchOnlySetsTime | src/app/dashboard/page.tsx:66 | checking in over an existing record changes its check-in time only |
| Dashboard.CheckInMakesPresent | src/app/dashboard/page.tsx:61-78 | after checking in the user is present unless on approved leave, and at most one record is added |
| Dashboard.CheckInRecorded | src/app/dashboard/page.tsx:65-74 | today's record afterwards carries the check-in time |
| Dashboard.RoundTenth | src/app/dashboard/page.tsx:91 | the hours are rounded to a tenth, within 0.05 of the exact value |
| Dashboard.HoursAfterCheckIn | src/app/dashboard/page.tsx:84-92 | the hours are checkout minus check-in, in hours, rounded to a tenth; with no check-in time 9:00 is used |
| Dashboard.CheckOut | src/app/dashboard/page.tsx:80-97 | today's record gets the checkout time and hours, then the user is logged out |
| Dashboard.CheckOutPatchFields | src/app/dashboard/page.tsx:89-92 | checkout sets the checkout time and the hours and nothing else |
| Dashboard.DashboardEmployees | src/app/dashboard/page.tsx:118-123 | the employee list holds the signed-in user alone (the filter keeps ids equal to its own), and only while its name or employee id matches the search |
| LeavePage.FormDays | src/app/leave/page.tsx:35-37 | 0 until both dates are filled in, then the inclusive count of days |
| LeavePage.Department | src/app/leave/page.tsx:51 | the user's department, or "General" when it is missing or empty |
| LeavePage.LeaveDraftOf | src/app/leave/page.tsx:47-58 | a pending request from the user, with the form's dates and days, no remarks and no update time |
| LeavePage.Submit | src/app/leave/page.tsx:39-63 | submitted iff type, dates and reason are filled in; then exactly that request is appended |
| LeavePage.SubmittedDaysPositive | src/app/leave/page.tsx:35-37 | a complete form with readable dates asks for at least one day |
| LeavePage.UserRequests | src/app/leave/page.tsx:23 | exactly the signed-in user's requests |
| LeavePage.WithStatus | src/app/leave/page.tsx:65-67 | exactly the requests with the status |
| LeavePage.StatusCountsPartition | src/app/leave/page.tsx:65-67 | pending, approved and rejected counts add up to all the requests counted, the user's here and everyone's in the HR counts of src/app/admin/leave/page.tsx lines 42-44 |
| LeavePage.SubmittedIsPending | src/app/leave/page.tsx:47-58 | a submitted request shows up last among the user's pending requests |
| LeavePage.TotalBalanceProperties | src/app/leave/page.tsx:69-71 | the total ignores unpaid days, is 0 with no balance, and is 35 for a new user |
| AdminLeave.FilteredRequests | src/app/admin/leave/page.tsx:46-52 | the list keeps the order, and a request is shown iff it matches the search, the status filter and the type filter |
| AdminLeave.NoFilterShowsAll | src/app/admin/leave/page.tsx:46-52 | no search and no filters show every request |
| AdminLeave.OfferedActions | src/app/admin/leave/page.tsx:215-239 | approve and reject are offered iff the request is pending |
| AdminLeave.Verdict | src/app/admin/leave/page.tsx:64 | a decision is never pending |
| AdminLeave.Notice | src/app/admin/leave/page.tsx:68-74 | an unread leave notification addressed to the request's employee |
| AdminLeave.LeaveReview.constructor | src/app/admin/leave/page.tsx:38-40 | the dialog starts empty |
| AdminLeave.LeaveReview.HandleAction | src/app/admin/leave/page.tsx:54-58 | the request and the action are picked and the remarks cleared |
| AdminLeave.LeaveReview.SetRemarks | src/app/admin/leave/page.tsx:274-275 | the remarks are the typed text; the picked request and action stay |
| AdminLeave.LeaveReview.ConfirmAction | src/app/admin/leave/page.tsx:60-80 | with a request and action picked, the request is decided with the remarks, the notice goes in front, and the dialog is cleared; otherwise nothing changes |
| AdminLeave.DecisionIsFinal | src/app/admin/leave/page.tsx:63-66 | a decided request carries the verdict, the remarks and the time, and offers no further action |
| AdminLeave.DecisionMovesCount | src/app/admin/leave/page.tsx:42-44 | deciding a pending request moves one from the pending count to its verdict's count |
| AdminLeave.UpdateOnlyAt | src/app/admin/leave/page.tsx:63-66 | with distinct ids, the update changes the one request with that id only |
| ProfilePage.PageProfile | src/app/profile/page.tsx:22 | a profile shows iff a user is signed in and has one |
| ProfilePage.ListUpdate | src/app/profile/page.tsx:35 | the update carries the new list |
| ProfilePage.Appended | src/app/profile/page.tsx:34-35 | the old list (empty when missing) with the item at the end |
| ProfilePage.Without | src/app/profile/page.tsx:43 | every copy of the item goes, every other entry stays as many times as it occurred, in order |
| ProfilePage.RemoveUndoesAdd | src/app/profile/page.tsx:32-45 | removing what was just added gives the old list without any copy of the item |
| ProfilePage.RemoveAbsentKeeps | src/app/profile/page.tsx:41-45 | removing an absent item keeps the list |
| ProfilePage.ListUpdateTouchesOnlyItsList | src/app/profile/page.tsx:32-60 | a list update changes its list and no other profile field |
| ProfilePage.ProfileEditor.constructor | src/app/profile/page.tsx:29-30 | both input boxes start empty |
| ProfilePage.ProfileEditor.AddSkill | src/app/profile/page.tsx:32-39 | a trimmed non-empty skill with a user signed in is appended and the box cleared; otherwise nothing changes |
| ProfilePage.ProfileEditor.AddCertification | src/app/profile/page.tsx:47-54 | the same for certifications |
| ProfilePage.Remove | src/app/profile/page.tsx:41-60 | with the list present, every copy of the skill (or certification) leaves it; otherwise nothing changes |
| ProfilePage.EditText | src/app/profile/page.tsx:145-147 | with a user signed in, the field takes the text; otherwise nothing changes (also lines 172-174 and 199-201) |
| ProfilePage.TextUpdateTouchesOnlyItsField | src/app/profile/page.tsx:145-201 | a text edit sets its field and keeps every other one |
| SignIn.FindAccount | src/app/sign-in/page.tsx:26-29 | the first user whose e-mail or employee id matches, ignoring case; none iff no user matches |
| SignIn.LoginOutcome | src/app/sign-in/page.tsx:25-49 | sign-in succeeds iff an account matches and, on the admin tab, has the HR or admin role |
| SignIn.PerformLogin | src/app/sign-in/page.tsx:25-50 | on success the found user is signed in; on failure nothing changes |
| SignIn.HandleSubmit | src/app/sign-in/page.tsx:52-66 | empty fields never sign in; otherwise the outcome is that of the tab's role |
| SignIn.FirstMatchSignsIn | src/app/sign-in/page.tsx:26-29 | the first matching user in store order is the one signed in |
| SignIn.TabsGate | src/app/sign-in/page.tsx:32-35 | the employee tab admits any account, the admin tab only HR and admin accounts |
| SignIn.LoginIgnoresCase | src/app/sign-in/page.tsx:26-29 | the login's case does not matter |
| SignUp.NewAccount | src/app/sign-up/page.tsx:63-73 | an active HR user with the form's name and e-mail, created today |
| SignUp.Submit | src/app/sign-up/page.tsx:47-81 | created iff all fields are filled and the passwords match; then the account is added with its defaults and signed in; otherwise nothing changes |
| SignUp.SignUpSerialIsOne | src/app/sign-up/page.tsx:65 | the employee id ends with serial 0001 |
| SignUp.SignUpDefaults | src/app/sign-up/page.tsx:75 | without job info the phone and department are empty |
| AttendancePage.NewestFirstPairs | src/app/attendance/page.tsx:27 | a newest-first list has every earlier element no older than every later one |
| AttendancePage.Insert | src/app/attendance/page.tsx:27 | inserting keeps newest-first order and adds exactly the element |
| AttendancePage.SortNewestFirst | src/app/attendance/page.tsx:27 | the result is newest first and a permutation of the input |
| AttendancePage.MonthAttendance | src/app/attendance/page.tsx:23-28 | exactly the user's records of the month, newest first |
| AttendancePage.PresentCount | src/app/attendance/page.tsx:31 | the present days never exceed the month's records |
| AttendancePage.LeaveDaysUnknown | src/app/attendance/page.tsx:32-36 | the leave total is unknown iff a counted request has an unknown day count |
| AttendancePage.UncountedIgnored | src/app/attendance/page.tsx:32-36 | requests of other users, other months or other statuses do not change the total |
| AttendancePage.CountedLeaveAdds | src/app/attendance/page.tsx:32-36 | a counted request adds its days |
| AttendancePage.LeavesIgnoreYear | src/app/attendance/page.tsx:35 | the leave total is the same for the same month of any year |
| AttendancePage.WorkingDaysIn | src/app/attendance/page.tsx:39-44 | at most the days counted |
| AttendancePage.WorkingDays | src/app/attendance/page.tsx:39-44 | the loop counts the weekdays of the month |
| AttendancePage.Workdays | src/app/attendance/page.tsx:41-43 | at most the days counted |
| AttendancePage.WorkdaysSplit | src/app/attendance/page.tsx:41-43 | counts over consecutive ranges add up |
| AttendancePage.WeekHasFiveWorkdays | src/app/attendance/page.tsx:41-43 | every seven consecutive days hold five working days |
| AttendancePage.SevenDaysFiveWorked | src/app/attendance/page.tsx:41-43 | seven consecutive days, one by one, hold five working days |
| AttendancePage.WorkingDaysFromFirst | src/app/attendance/page.tsx:39-44 | the month's count equals the weekday count from its first day |
| AttendancePage.WorkingDaysBounds | src/app/attendance/page.tsx:39-44 | every month has 20 to 23 working days |
| AttendancePage.StatsOf | src/app/attendance/page.tsx:30-47 | present at most the month's records, working days at most the month's days |
| AttendancePage.MonthView.constructor | src/app/attendance/page.tsx:19 | the view opens on today |
| AttendancePage.MonthView.PrevMonth | src/app/attendance/page.tsx:49-51 | the view moves to the first of the previous month |
| AttendancePage.MonthView.NextMonth | src/app/attendance/page.tsx:53-55 | the view moves to the first of the next month |
| AttendancePage.MonthView.SelectMonth | src/app/attendance/page.tsx:57-60 | the view moves to the first of the chosen month of the same year |
| AttendancePage.MonthView.Stats | src/app/attendance/page.tsx:30-47 | the figures of the month on show |
| AttendancePage.RoundHalfUp | src/app/attendance/page.tsx:65 | `Math.round`: within half of the value, halves going up |
| AttendancePage.HoursParts | src/app/attendance/page.tsx:64-65 | whole hours and rounded minutes (up to 60) within half a minute of the value |
| AttendancePage.FormatHours | src/app/attendance/page.tsx:62-67 | "-" iff there are no hours (the same code serves src/app/admin/attendance/page.tsx lines 59-64) |
| AttendancePage.FormatHoursSixtyMinutes | src/app/attendance/page.tsx:62-67 | as written, 1.999 hours shows "01:60" |
| AttendancePage.CarriedParts | src/app/attendance/page.tsx:64-66 | minutes below 60, still within half a minute of the value |
| AttendancePage.FormatHoursCarried | src/app/attendance/page.tsx:62-67 | "-" iff there are no hours |
| AttendancePage.CarriedAgrees | src/app/attendance/page.tsx:64-66 | the carried form agrees with the written one below 60 minutes and carries 60 minutes into the hour |
| AttendancePage.FormatHoursCarriedExample | src/app/attendance/page.tsx:62-67 | with the carry, 1.999 hours shows "02:00" |
| AdminAttendance.Listed | src/app/admin/attendance/page.tsx:41-44 | a user is listed iff its name or employee id matches the search |
| AdminAttendance.Rows | src/app/admin/attendance/page.tsx:34-45 | one row per listed user, in order, with that user's record for the day |
| AdminAttendance.EmptySearchListsEveryone | src/app/admin/attendance/page.tsx:34-45 | the empty search gives one row per user, in order |
| AdminAttendance.RowRecordIsFirstOfDay | src/app/admin/attendance/page.tsx:36 | a row shows the first record of its user for the day |
| AdminAttendance.DayView.constructor | src/app/admin/attendance/page.tsx:29 | the view opens on today |
| AdminAttendance.DayView.PrevDay | src/app/admin/attendance/page.tsx:47-51 | the view moves back one day |
| AdminAttendance.DayView.NextDay | src/app/admin/attendance/page.tsx:53-57 | the view moves forward one day |

## Left out

- Persistence (`persist`, local storage) and the seed data: the stores start from given slices.
- Salary structures, payslips, reports, `maskSalary`, `formatCurrency` and `cn`: these are not part of this model.
- `formatDate` and other `Intl` formatting: the locale date formatter is a parameter of the notification text.
- `getDaysInMonth` and `getFirstDayOfMonth` are thin wrappers over JavaScript `Date`. The model covers them through `Dates.DaysInMonth` and `Dates.Weekday`.
- Floating point: hours are exact rationals (`real`), and `Math.round` is modelled exactly, without binary rounding error.
- Time zones: every date is a calendar date in one zone. Date strings other than complete `YYYY-MM-DD` count as unreadable, and years outside 0..9999 are not formatted.
- Utils.FormatTime: returns `None` for every text that does not read as two decimal numbers around a colon. The source does different things there. An unreadable hour such as "ab:30" prints "12:30 AM", because `NaN % 12 || 12` is 12 and `NaN >= 12` is false. Text that `Number` accepts but the model does not, such as " 9:30" or "+9:30", prints "9:30 AM". Text without a colon, such as "9", throws a `TypeError` at `minutes.toString()` (src/lib/utils.ts:28). Only unreadable minutes print "h:NaN".
- Dashboard.HoursWorked: an unreadable check-in time gives `None` where the source computes `NaN` hours. With `None`, `CheckOutPatch` leaves the old `totalHours` in place (`CheckOutPatchFields`); the source stores `NaN`, which `formatHours` shows as "NaN:NaN".
- Case mapping is ASCII only: no Unicode upper/lower-casing.
- Toasts, routing, role redirects and the artificial delays of the handlers.
- SignUp.Submit: the company name and logo stored on the new user are not modelled.
- Dashboard.CheckIn: requires a signed-in user, as the source's `user!` assumes.
- LeavePage.Submit: requires a signed-in user once the form is complete, as the source's `user!` (src/app/leave/page.tsx:48-50) assumes; an anonymous submit is not modelled.
- AttendancePage.SortNewestFirst: the stability of the sort is not proved; the contract states order and permutation only.
- The sign-in page's demo-login shortcut (`handleDemoLogin`) is not modelled.
- The admin attendance page's `formatHours` is the same code as the attendance page's and is modelled once, as `AttendancePage.FormatHours`.
- The temporary password of a new employee is random and only shown in a message, never stored, so it is left out.
- React form resets and local UI state outside the modelled classes.

## Findings

| source | as written | input that shows it | evidently intended | confidence | as-written member | corrected member |
|---|---|---|---|---|---|---|
| src/app/attendance/page.tsx:62-67 | minutes are `Math.round` of the fraction times 60 without a carry, so they can reach 60 | 1.999 hours shows "01:60" | "02:00": a rounded 60 minutes carries into the hour | not executed | AttendancePage.FormatHoursSixtyMinutes | AttendancePage.FormatHoursCarried |
