/**
 * The two application stores of src/lib/store.ts. `AuthStore` holds the
 * signed-in user; `DataStore` holds the HR records, its collections being
 * fields that each action replaces with a new value built from the old one.
 * Random ids, the random avatar and the clock are parameters of the actions.
 */
module Store {
  import opened Wrappers
  import opened Domain
  import Seqs

  // ---------------------------------------------------------------- auth

  class AuthStore {
    var user: Option<User>
    var isAuthenticated: bool

    constructor()
      ensures user == None && !isAuthenticated
    {
      user := None;
      isAuthenticated := false;
    }

    /** `login`: the given user becomes the authenticated user. */
    method Login(u: User)
      modifies this
      ensures user == Some(u) && isAuthenticated
    {
      user := Some(u);
      isAuthenticated := true;
    }

    /** `logout`: nobody is signed in. */
    method Logout()
      modifies this
      ensures user == None && !isAuthenticated
    {
      user := None;
      isAuthenticated := false;
    }

    /** `updateUser`: merge the supplied fields into the signed-in user; a signed-out store stays signed out. */
    method UpdateUser(updates: UserUpdate)
      modifies this
      ensures user == if old(user).Some? then Some(MergeUser(old(user).value, updates)) else None
      ensures unchanged(this`isAuthenticated)
    {
      if user.Some? {
        user := Some(MergeUser(user.value, updates));
      }
    }
  }

  // ---------------------------------------------------------------- new users

  /** The nine stock portraits `addUser` picks from: five men, then four women. */
  const IndianAvatars: seq<string> := [
    "https://images.unsplash.com/photo-1506794778202-cad84cf45f1d?w=150&h=150&fit=crop&crop=face",
    "https://images.unsplash.com/photo-1472099645785-5658abf4ff4e?w=150&h=150&fit=crop&crop=face",
    "https://images.unsplash.com/photo-1507003211169-0a1dd7228f2d?w=150&h=150&fit=crop&crop=face",
    "https://images.unsplash.com/photo-1500648767791-00dcc994a43e?w=150&h=150&fit=crop&crop=face",
    "https://images.unsplash.com/photo-1519085360753-af0119f7cbe7?w=150&h=150&fit=crop&crop=face",
    "https://images.unsplash.com/photo-1573496359142-b8d87734a5a2?w=150&h=150&fit=crop&crop=face",
    "https://images.unsplash.com/photo-1580489944761-15a19d654956?w=150&h=150&fit=crop&crop=face",
    "https://images.unsplash.com/photo-1534528741775-53994a69daeb?w=150&h=150&fit=crop&crop=face",
    "https://images.unsplash.com/photo-1544005313-94ddf0286df2?w=150&h=150&fit=crop&crop=face"
  ]

  /** The leave allowance every new user starts with. */
  const NewLeaveBalance := LeaveBalance(15, 10, 0, 7, 3)

  /** The stored user: a non-empty picture of its own is kept, otherwise the avatar. */
  function WithAvatar(user: User, avatar: string): (u: User)
    ensures u.profilePicture.Some?
    ensures user.profilePicture.Some? && user.profilePicture.value != "" ==> u.profilePicture == user.profilePicture
    ensures !(user.profilePicture.Some? && user.profilePicture.value != "") ==> u.profilePicture == Some(avatar)
    ensures u.(profilePicture := user.profilePicture) == user
  {
    user.(profilePicture := Some(OrElse(user.profilePicture, avatar)))
  }

  /** `jobInfo?.department || ''` and its siblings. */
  function InfoDepartment(jobInfo: Option<JobInfo>): string {
    if jobInfo.Some? then OrElse(jobInfo.value.department, "") else ""
  }
  function InfoPosition(jobInfo: Option<JobInfo>): string {
    if jobInfo.Some? then OrElse(jobInfo.value.position, "") else ""
  }
  function InfoPhone(jobInfo: Option<JobInfo>): string {
    if jobInfo.Some? then OrElse(jobInfo.value.phone, "") else ""
  }

  /** The profile `addUser` installs: fixed defaults, the user's e-mail, and a phone from the job information. */
  function NewProfile(user: User, jobInfo: Option<JobInfo>): (p: Profile)
    ensures IsComplete(p)
    ensures p.userId == Some(user.id) && p.personalEmail == Some(user.email)
    ensures p.skills == Some([]) && p.certifications == Some([])
    ensures p.phone == Some(InfoPhone(jobInfo))
  {
    Profile(
      userId := Some(user.id),
      dateOfBirth := Some("1990-01-01"),
      gender := Some(Male),
      bloodGroup := Some("O+"),
      maritalStatus := Some(Single),
      nationality := None,
      phone := Some(InfoPhone(jobInfo)),
      personalEmail := Some(user.email),
      currentAddress := Some(""),
      permanentAddress := Some(""),
      emergencyContact := Some(EmergencyContact("", "", "")),
      bankDetails := None,
      panNumber := None,
      uanNumber := None,
      empCode := None,
      about := None,
      whatILoveAboutJob := None,
      interestsAndHobbies := None,
      skills := Some([]),
      certifications := Some([]))
  }

  /** The job details `addUser` installs, joining on `today`. */
  function NewJobDetails(userId: Id, jobInfo: Option<JobInfo>, today: string): (j: JobDetails)
    ensures j.userId == userId && j.dateOfJoining == today
    ensures j.department == InfoDepartment(jobInfo) && j.position == InfoPosition(jobInfo)
    ensures j.employmentType == FullTime
  {
    JobDetails(userId, InfoDepartment(jobInfo), InfoPosition(jobInfo), today, FullTime, "",
               "Bangalore Office", "9:00 AM - 6:00 PM", None)
  }

  /** `jobInfo` fields that are present and non-empty are what the new records carry. */
  lemma JobInfoDefaults(user: User, department: string, position: string, phone: string, today: string)
    requires department != "" && position != "" && phone != ""
    ensures var info := Some(JobInfo(Some(department), Some(position), Some(phone)));
      && NewJobDetails(user.id, info, today).department == department
      && NewJobDetails(user.id, info, today).position == position
      && NewProfile(user, info).phone == Some(phone)
    ensures NewJobDetails(user.id, None, today).department == "" && NewProfile(user, None).phone == Some("")
  {
  }

  // ---------------------------------------------------------------- record updates

  function LeaveFromDraft(d: LeaveDraft, id: Id, now: string): LeaveRequest {
    LeaveRequest(id, d.userId, d.employeeName, d.employeeId, d.department, d.leaveType, d.fromDate,
                 d.toDate, d.days, d.reason, d.status, d.adminRemarks, now, d.updatedAt)
  }

  function AttendanceFromDraft(d: AttendanceDraft, id: Id): Attendance {
    Attendance(id, d.userId, d.date, d.checkInTime, d.checkOutTime, d.totalHours, d.extraHours, d.status)
  }

  function NotificationFromDraft(d: NotificationDraft, id: Id, now: string): Notification {
    Notification(id, d.userId, d.kind, d.title, d.message, d.isRead, now)
  }

  /** The updates with `updatedAt` set to `now`, the value that wins in `updateLeaveRequest`. */
  function Stamped(updates: LeaveUpdate, now: string): (p: LeaveUpdate)
    ensures p.updatedAt == Some(now) && p.(updatedAt := updates.updatedAt) == updates
  {
    updates.(updatedAt := Some(now))
  }

  /**
   * `updateLeaveRequest`'s map: every request with the id gets the updates
   * and then `updatedAt = now`, which wins over an `updatedAt` in the
   * updates; the others are kept.
   */
  function UpdateLeaves(xs: seq<LeaveRequest>, id: Id, updates: LeaveUpdate, now: string): (r: seq<LeaveRequest>)
    ensures |r| == |xs|
    ensures forall i :: 0 <= i < |xs| ==> r[i] == if xs[i].id == id then MergeLeave(xs[i], Stamped(updates, now)) else xs[i]
  {
    Seqs.MapIf(xs, (r: LeaveRequest) => r.id == id, (r: LeaveRequest) => MergeLeave(r, updates).(updatedAt := Some(now)))
  }

  /** `updateAttendance`'s map: records with the id get the updates, the others are kept. */
  function UpdateAttendances(xs: seq<Attendance>, id: Id, updates: AttendanceUpdate): (r: seq<Attendance>)
    ensures |r| == |xs|
    ensures forall i :: 0 <= i < |xs| ==> r[i] == if xs[i].id == id then MergeAttendance(xs[i], updates) else xs[i]
  {
    Seqs.MapIf(xs, (a: Attendance) => a.id == id, (a: Attendance) => MergeAttendance(a, updates))
  }

  /** `markNotificationRead`'s map. */
  function MarkRead(xs: seq<Notification>, id: Id): (r: seq<Notification>)
    ensures |r| == |xs|
    ensures forall i :: 0 <= i < |xs| ==> r[i] == if xs[i].id == id then xs[i].(isRead := true) else xs[i]
  {
    Seqs.MapIf(xs, (n: Notification) => n.id == id, (n: Notification) => n.(isRead := true))
  }

  /** `markAllNotificationsRead`'s map. */
  function MarkAllRead(xs: seq<Notification>): (r: seq<Notification>)
    ensures |r| == |xs|
    ensures forall i :: 0 <= i < |xs| ==> r[i] == xs[i].(isRead := true)
  {
    Seqs.Map(xs, (n: Notification) => n.(isRead := true))
  }

  // ---------------------------------------------------------------- data

  class DataStore {
    var users: seq<User>
    var profiles: map<Id, Profile>
    var jobDetails: map<Id, JobDetails>
    var leaveRequests: seq<LeaveRequest>
    var attendance: seq<Attendance>
    var leaveBalances: map<Id, LeaveBalance>
    var notifications: seq<Notification>

    /** A store holding the given records (the seed data is not part of this model). */
    constructor(users: seq<User>, profiles: map<Id, Profile>, jobDetails: map<Id, JobDetails>,
                leaveRequests: seq<LeaveRequest>, attendance: seq<Attendance>,
                leaveBalances: map<Id, LeaveBalance>, notifications: seq<Notification>)
      ensures this.users == users && this.profiles == profiles && this.jobDetails == jobDetails
      ensures this.leaveRequests == leaveRequests && this.attendance == attendance
      ensures this.leaveBalances == leaveBalances && this.notifications == notifications
    {
      this.users := users;
      this.profiles := profiles;
      this.jobDetails := jobDetails;
      this.leaveRequests := leaveRequests;
      this.attendance := attendance;
      this.leaveBalances := leaveBalances;
      this.notifications := notifications;
    }

    /**
     * `addUser`: append the user (with a picture) and install a fresh leave
     * balance, profile and job details under its id, replacing any there.
     * `avatarIndex` is the random pick, `today` the ISO date of the call.
     */
    method AddUser(user: User, jobInfo: Option<JobInfo>, avatarIndex: nat, today: string)
      requires avatarIndex < |IndianAvatars|
      modifies this
      ensures users == old(users) + [WithAvatar(user, IndianAvatars[avatarIndex])]
      ensures leaveBalances == old(leaveBalances)[user.id := NewLeaveBalance]
      ensures profiles == old(profiles)[user.id := NewProfile(user, jobInfo)]
      ensures jobDetails == old(jobDetails)[user.id := NewJobDetails(user.id, jobInfo, today)]
      ensures unchanged(this`leaveRequests, this`attendance, this`notifications)
    {
      users := users + [WithAvatar(user, IndianAvatars[avatarIndex])];
      leaveBalances := leaveBalances[user.id := NewLeaveBalance];
      profiles := profiles[user.id := NewProfile(user, jobInfo)];
      jobDetails := jobDetails[user.id := NewJobDetails(user.id, jobInfo, today)];
    }

    /**
     * `updateProfile`: merge the supplied fields into the user's profile;
     * for an id with no profile the merge starts from no fields at all.
     */
    method UpdateProfile(userId: Id, profile: Profile)
      modifies this
      ensures profiles == old(profiles)[userId := MergeProfile(StoredProfile(old(profiles), userId), profile)]
      ensures unchanged(this`users, this`jobDetails, this`leaveRequests, this`attendance, this`leaveBalances, this`notifications)
    {
      profiles := profiles[userId := MergeProfile(StoredProfile(profiles, userId), profile)];
    }

    /** `addLeaveRequest`: append the request with its id and `appliedAt = now`. */
    method AddLeaveRequest(request: LeaveDraft, id: Id, now: string)
      modifies this
      ensures leaveRequests == old(leaveRequests) + [LeaveFromDraft(request, id, now)]
      ensures unchanged(this`users, this`profiles, this`jobDetails, this`attendance, this`leaveBalances, this`notifications)
    {
      leaveRequests := leaveRequests + [LeaveFromDraft(request, id, now)];
    }

    /** `updateLeaveRequest`. */
    method UpdateLeaveRequest(id: Id, updates: LeaveUpdate, now: string)
      modifies this
      ensures leaveRequests == UpdateLeaves(old(leaveRequests), id, updates, now)
      ensures unchanged(this`users, this`profiles, this`jobDetails, this`attendance, this`leaveBalances, this`notifications)
    {
      leaveRequests := UpdateLeaves(leaveRequests, id, updates, now);
    }

    /** `addAttendance`: append the record with its id. */
    method AddAttendance(record: AttendanceDraft, id: Id)
      modifies this
      ensures attendance == old(attendance) + [AttendanceFromDraft(record, id)]
      ensures unchanged(this`users, this`profiles, this`jobDetails, this`leaveRequests, this`leaveBalances, this`notifications)
    {
      attendance := attendance + [AttendanceFromDraft(record, id)];
    }

    /** `updateAttendance`. */
    method UpdateAttendance(id: Id, updates: AttendanceUpdate)
      modifies this
      ensures attendance == UpdateAttendances(old(attendance), id, updates)
      ensures unchanged(this`users, this`profiles, this`jobDetails, this`leaveRequests, this`leaveBalances, this`notifications)
    {
      attendance := UpdateAttendances(attendance, id, updates);
    }

    /** `markNotificationRead`. */
    method MarkNotificationRead(id: Id)
      modifies this
      ensures notifications == MarkRead(old(notifications), id)
      ensures unchanged(this`users, this`profiles, this`jobDetails, this`leaveRequests, this`attendance, this`leaveBalances)
    {
      notifications := MarkRead(notifications, id);
    }

    /** `markAllNotificationsRead`: every notification, whoever it is addressed to. */
    method MarkAllNotificationsRead()
      modifies this
      ensures notifications == MarkAllRead(old(notifications))
      ensures unchanged(this`users, this`profiles, this`jobDetails, this`leaveRequests, this`attendance, this`leaveBalances)
    {
      notifications := MarkAllRead(notifications);
    }

    /** `addNotification`: the new notification goes in front, stamped with its id and `now`. */
    method AddNotification(notification: NotificationDraft, id: Id, now: string)
      modifies this
      ensures notifications == [NotificationFromDraft(notification, id, now)] + old(notifications)
      ensures unchanged(this`users, this`profiles, this`jobDetails, this`leaveRequests, this`attendance, this`leaveBalances)
    {
      notifications := [NotificationFromDraft(notification, id, now)] + notifications;
    }
  }

  /** `state.profiles[userId]` as a spread source: the stored profile, or no fields when there is none. */
  function StoredProfile(profiles: map<Id, Profile>, userId: Id): Profile {
    if userId in profiles then profiles[userId] else NoProfileFields
  }

  // ---------------------------------------------------------------- properties

  /** Updating a profile sets exactly the supplied fields; an id without a profile ends up with just those fields. */
  lemma UpdateProfileFields(profiles: map<Id, Profile>, userId: Id, update: Profile)
    ensures var p := MergeProfile(StoredProfile(profiles, userId), update);
      && (userId in profiles ==> Overrides(p, profiles[userId], update))
      && (userId !in profiles ==> p == update)
  {
    MergeProfileFields(StoredProfile(profiles, userId), update);
    MergeProfileLaws(StoredProfile(profiles, userId), update);
  }

  /** Updating with an unknown id changes nothing. */
  lemma UpdateUnknownIdIsNoOp(leaves: seq<LeaveRequest>, records: seq<Attendance>, notes: seq<Notification>,
                              id: Id, lu: LeaveUpdate, au: AttendanceUpdate, now: string)
    requires forall i :: 0 <= i < |leaves| ==> leaves[i].id != id
    requires forall i :: 0 <= i < |records| ==> records[i].id != id
    requires forall i :: 0 <= i < |notes| ==> notes[i].id != id
    ensures UpdateLeaves(leaves, id, lu, now) == leaves
    ensures UpdateAttendances(records, id, au) == records
    ensures MarkRead(notes, id) == notes
  {
  }

  /** Every updated leave request carries `updatedAt = now`, even when the updates supply another value. */
  lemma UpdatedLeaveIsStamped(xs: seq<LeaveRequest>, id: Id, updates: LeaveUpdate, now: string, i: nat)
    requires i < |xs| && xs[i].id == id
    ensures UpdateLeaves(xs, id, updates, now)[i].updatedAt == Some(now)
    ensures updates.status.Some? ==> UpdateLeaves(xs, id, updates, now)[i].status == updates.status.value
    ensures updates.status.None? ==> UpdateLeaves(xs, id, updates, now)[i].status == xs[i].status
  {
  }

  /** Applying the same leave update twice is applying it once. */
  lemma UpdateLeavesIdempotent(xs: seq<LeaveRequest>, id: Id, updates: LeaveUpdate, now: string)
    ensures UpdateLeaves(UpdateLeaves(xs, id, updates, now), id, updates, now) == UpdateLeaves(xs, id, updates, now)
  {
    forall i | 0 <= i < |xs| && xs[i].id == id {
      MergeLeaveIdempotent(xs[i], Stamped(updates, now));
    }
  }

  /** Marking a notification read twice is marking it once; only that id changes and nothing is marked unread. */
  lemma MarkReadProperties(xs: seq<Notification>, id: Id)
    ensures MarkRead(MarkRead(xs, id), id) == MarkRead(xs, id)
    ensures forall i :: 0 <= i < |xs| ==> MarkRead(xs, id)[i].isRead == (xs[i].isRead || xs[i].id == id)
  {
  }

  /**
   * Marking all read reaches every notification of every user, not just the
   * signed-in user's: no unread notification remains for anybody.
   */
  lemma MarkAllReadIsUnscoped(xs: seq<Notification>, someUser: Id)
    ensures forall i :: 0 <= i < |xs| ==> MarkAllRead(xs)[i].isRead && MarkAllRead(xs)[i].userId == xs[i].userId
    ensures Seqs.Filter(MarkAllRead(xs), (n: Notification) => n.userId == someUser && !n.isRead) == []
  {
    var r := MarkAllRead(xs);
    var f := Seqs.Filter(r, (n: Notification) => n.userId == someUser && !n.isRead);
    if f != [] {
      assert f[0] in r;
    }
  }
}
