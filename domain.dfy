/**
 * The records of the HR domain (src/lib/types.ts). Optional fields are
 * `Option`s; a `Partial<T>` update is a record of `Option`s that is merged
 * field by field, a supplied field replacing the old value, as the spread
 * `{ ...old, ...updates }` does.
 */
module Domain {
  import opened Wrappers
  import Dates

  type Id = string

  datatype Role = Employee | Hr | Admin

  datatype UserStatus = Active | Inactive | OnNotice | OnLeaveStatus

  /** A user account; `createdAt` keeps the calendar date of creation (its time of day is not modelled). */
  datatype User = User(
    id: Id,
    employeeId: string,
    email: string,
    fullName: string,
    role: Role,
    status: UserStatus,
    profilePicture: Option<string>,
    createdAt: Dates.Date)

  /** `Partial<User>`. */
  datatype UserUpdate = UserUpdate(
    id: Option<Id>,
    employeeId: Option<string>,
    email: Option<string>,
    fullName: Option<string>,
    role: Option<Role>,
    status: Option<UserStatus>,
    profilePicture: Option<string>,
    createdAt: Option<Dates.Date>)

  function MergeUser(u: User, p: UserUpdate): User {
    User(
      p.id.GetOr(u.id),
      p.employeeId.GetOr(u.employeeId),
      p.email.GetOr(u.email),
      p.fullName.GetOr(u.fullName),
      p.role.GetOr(u.role),
      p.status.GetOr(u.status),
      Override(u.profilePicture, p.profilePicture),
      p.createdAt.GetOr(u.createdAt))
  }

  datatype Gender = Male | Female | Other
  datatype MaritalStatus = Single | Married | Divorced | Widowed
  datatype EmergencyContact = EmergencyContact(name: string, relationship: string, phone: string)
  datatype BankDetails = BankDetails(accountNumber: string, bankName: string, ifscCode: string)

  /**
   * A profile, with every field optional. The store holds complete profiles
   * (seeded, or installed by `addUser`) and also the fragments that
   * `updateProfile` stores for a user id that had no profile, since spreading
   * `undefined` contributes no fields; the same shape is `Partial<Profile>`.
   */
  datatype Profile = Profile(
    userId: Option<Id>,
    dateOfBirth: Option<string>,
    gender: Option<Gender>,
    bloodGroup: Option<string>,
    maritalStatus: Option<MaritalStatus>,
    nationality: Option<string>,
    phone: Option<string>,
    personalEmail: Option<string>,
    currentAddress: Option<string>,
    permanentAddress: Option<string>,
    emergencyContact: Option<EmergencyContact>,
    bankDetails: Option<BankDetails>,
    panNumber: Option<string>,
    uanNumber: Option<string>,
    empCode: Option<string>,
    about: Option<string>,
    whatILoveAboutJob: Option<string>,
    interestsAndHobbies: Option<string>,
    skills: Option<seq<string>>,
    certifications: Option<seq<string>>)

  /** The profile with no fields: what `{ ...undefined }` contributes, and the update that changes nothing. */
  const NoProfileFields := Profile(None, None, None, None, None, None, None, None, None, None,
                                   None, None, None, None, None, None, None, None, None, None)

  /** A profile carrying every field that the Profile interface does not mark optional. */
  predicate IsComplete(p: Profile) {
    p.userId.Some? && p.dateOfBirth.Some? && p.gender.Some? && p.bloodGroup.Some?
    && p.maritalStatus.Some? && p.phone.Some? && p.personalEmail.Some?
    && p.currentAddress.Some? && p.permanentAddress.Some? && p.emergencyContact.Some?
  }

  /** `{ ...base, ...update }` on profiles. */
  function MergeProfile(base: Profile, update: Profile): Profile {
    Profile(
      Override(base.userId, update.userId),
      Override(base.dateOfBirth, update.dateOfBirth),
      Override(base.gender, update.gender),
      Override(base.bloodGroup, update.bloodGroup),
      Override(base.maritalStatus, update.maritalStatus),
      Override(base.nationality, update.nationality),
      Override(base.phone, update.phone),
      Override(base.personalEmail, update.personalEmail),
      Override(base.currentAddress, update.currentAddress),
      Override(base.permanentAddress, update.permanentAddress),
      Override(base.emergencyContact, update.emergencyContact),
      Override(base.bankDetails, update.bankDetails),
      Override(base.panNumber, update.panNumber),
      Override(base.uanNumber, update.uanNumber),
      Override(base.empCode, update.empCode),
      Override(base.about, update.about),
      Override(base.whatILoveAboutJob, update.whatILoveAboutJob),
      Override(base.interestsAndHobbies, update.interestsAndHobbies),
      Override(base.skills, update.skills),
      Override(base.certifications, update.certifications))
  }

  datatype EmploymentType = FullTime | PartTime | Contract | Intern

  datatype JobDetails = JobDetails(
    userId: Id,
    department: string,
    position: string,
    dateOfJoining: string,
    employmentType: EmploymentType,
    reportingManager: string,
    workLocation: string,
    shiftTimings: string,
    company: Option<string>)

  datatype AttendanceStatus = Present | Absent | HalfDay | OnLeaveDay | Weekend | Holiday

  /**
   * One attendance record; `date` is the ISO date text the pages compare,
   * times of day are `HH:MM` text, hours are exact rationals.
   */
  datatype Attendance = Attendance(
    id: Id,
    userId: Id,
    date: string,
    checkInTime: Option<string>,
    checkOutTime: Option<string>,
    totalHours: Option<real>,
    extraHours: Option<real>,
    status: AttendanceStatus)

  /** `Omit<Attendance, 'id'>`: what `addAttendance` is given. */
  datatype AttendanceDraft = AttendanceDraft(
    userId: Id,
    date: string,
    checkInTime: Option<string>,
    checkOutTime: Option<string>,
    totalHours: Option<real>,
    extraHours: Option<real>,
    status: AttendanceStatus)

  /** `Partial<Attendance>`. */
  datatype AttendanceUpdate = AttendanceUpdate(
    id: Option<Id>,
    userId: Option<Id>,
    date: Option<string>,
    checkInTime: Option<string>,
    checkOutTime: Option<string>,
    totalHours: Option<real>,
    extraHours: Option<real>,
    status: Option<AttendanceStatus>)

  const NoAttendanceFields := AttendanceUpdate(None, None, None, None, None, None, None, None)

  function MergeAttendance(a: Attendance, p: AttendanceUpdate): Attendance {
    Attendance(
      p.id.GetOr(a.id),
      p.userId.GetOr(a.userId),
      p.date.GetOr(a.date),
      Override(a.checkInTime, p.checkInTime),
      Override(a.checkOutTime, p.checkOutTime),
      Override(a.totalHours, p.totalHours),
      Override(a.extraHours, p.extraHours),
      p.status.GetOr(a.status))
  }

  datatype LeaveType = Paid | Sick | Unpaid | Casual | Emergency

  datatype LeaveStatus = Pending | Approved | Rejected

  /**
   * A leave request. `days` is `None` where the source stores NaN: the day
   * count of a date range JavaScript cannot read.
   */
  datatype LeaveRequest = LeaveRequest(
    id: Id,
    userId: Id,
    employeeName: string,
    employeeId: string,
    department: string,
    leaveType: LeaveType,
    fromDate: string,
    toDate: string,
    days: Option<nat>,
    reason: string,
    status: LeaveStatus,
    adminRemarks: Option<string>,
    appliedAt: string,
    updatedAt: Option<string>)

  /** `Omit<LeaveRequest, 'id' | 'appliedAt'>`: what `addLeaveRequest` is given. */
  datatype LeaveDraft = LeaveDraft(
    userId: Id,
    employeeName: string,
    employeeId: string,
    department: string,
    leaveType: LeaveType,
    fromDate: string,
    toDate: string,
    days: Option<nat>,
    reason: string,
    status: LeaveStatus,
    adminRemarks: Option<string>,
    updatedAt: Option<string>)

  /** `Partial<LeaveRequest>`. */
  datatype LeaveUpdate = LeaveUpdate(
    id: Option<Id>,
    userId: Option<Id>,
    employeeName: Option<string>,
    employeeId: Option<string>,
    department: Option<string>,
    leaveType: Option<LeaveType>,
    fromDate: Option<string>,
    toDate: Option<string>,
    days: Option<nat>,
    reason: Option<string>,
    status: Option<LeaveStatus>,
    adminRemarks: Option<string>,
    appliedAt: Option<string>,
    updatedAt: Option<string>)

  const NoLeaveFields := LeaveUpdate(None, None, None, None, None, None, None, None, None, None, None, None, None, None)

  function MergeLeave(r: LeaveRequest, p: LeaveUpdate): LeaveRequest {
    LeaveRequest(
      p.id.GetOr(r.id),
      p.userId.GetOr(r.userId),
      p.employeeName.GetOr(r.employeeName),
      p.employeeId.GetOr(r.employeeId),
      p.department.GetOr(r.department),
      p.leaveType.GetOr(r.leaveType),
      p.fromDate.GetOr(r.fromDate),
      p.toDate.GetOr(r.toDate),
      Override(r.days, p.days),
      p.reason.GetOr(r.reason),
      p.status.GetOr(r.status),
      Override(r.adminRemarks, p.adminRemarks),
      p.appliedAt.GetOr(r.appliedAt),
      Override(r.updatedAt, p.updatedAt))
  }

  /** Merging the same leave update twice is merging it once. */
  lemma MergeLeaveIdempotent(r: LeaveRequest, p: LeaveUpdate)
    ensures MergeLeave(MergeLeave(r, p), p) == MergeLeave(r, p)
  {
  }

  datatype LeaveBalance = LeaveBalance(paid: int, sick: int, unpaid: int, casual: int, emergency: int)

  datatype NotificationType = LeaveNotice | AttendanceNotice | PayrollNotice | Announcement

  datatype Notification = Notification(
    id: Id,
    userId: Id,
    kind: NotificationType,
    title: string,
    message: string,
    isRead: bool,
    createdAt: string)

  /** `Omit<Notification, 'id' | 'createdAt'>`: what `addNotification` is given. */
  datatype NotificationDraft = NotificationDraft(
    userId: Id,
    kind: NotificationType,
    title: string,
    message: string,
    isRead: bool)

  /** The optional second argument of `addUser`. */
  datatype JobInfo = JobInfo(department: Option<string>, position: Option<string>, phone: Option<string>)

  /** `m` holds every field that `update` supplies and, for the others, the field of `base`. */
  predicate Overrides(m: Profile, base: Profile, update: Profile) {
    && m.userId == (if update.userId.Some? then update.userId else base.userId)
    && m.dateOfBirth == (if update.dateOfBirth.Some? then update.dateOfBirth else base.dateOfBirth)
    && m.gender == (if update.gender.Some? then update.gender else base.gender)
    && m.bloodGroup == (if update.bloodGroup.Some? then update.bloodGroup else base.bloodGroup)
    && m.maritalStatus == (if update.maritalStatus.Some? then update.maritalStatus else base.maritalStatus)
    && m.nationality == (if update.nationality.Some? then update.nationality else base.nationality)
    && m.phone == (if update.phone.Some? then update.phone else base.phone)
    && m.personalEmail == (if update.personalEmail.Some? then update.personalEmail else base.personalEmail)
    && m.currentAddress == (if update.currentAddress.Some? then update.currentAddress else base.currentAddress)
    && m.permanentAddress == (if update.permanentAddress.Some? then update.permanentAddress else base.permanentAddress)
    && m.emergencyContact == (if update.emergencyContact.Some? then update.emergencyContact else base.emergencyContact)
    && m.bankDetails == (if update.bankDetails.Some? then update.bankDetails else base.bankDetails)
    && m.panNumber == (if update.panNumber.Some? then update.panNumber else base.panNumber)
    && m.uanNumber == (if update.uanNumber.Some? then update.uanNumber else base.uanNumber)
    && m.empCode == (if update.empCode.Some? then update.empCode else base.empCode)
    && m.about == (if update.about.Some? then update.about else base.about)
    && m.whatILoveAboutJob == (if update.whatILoveAboutJob.Some? then update.whatILoveAboutJob else base.whatILoveAboutJob)
    && m.interestsAndHobbies == (if update.interestsAndHobbies.Some? then update.interestsAndHobbies else base.interestsAndHobbies)
    && m.skills == (if update.skills.Some? then update.skills else base.skills)
    && m.certifications == (if update.certifications.Some? then update.certifications else base.certifications)
  }

  /** A merge takes every field the update supplies and keeps every field it does not, all twenty of them. */
  lemma MergeProfileFields(base: Profile, update: Profile)
    ensures Overrides(MergeProfile(base, update), base, update)
  {
  }

  /** Merging the empty update changes nothing, and merging the same update twice is merging it once. */
  lemma MergeProfileLaws(base: Profile, update: Profile)
    ensures MergeProfile(base, NoProfileFields) == base
    ensures MergeProfile(MergeProfile(base, update), update) == MergeProfile(base, update)
    ensures MergeProfile(NoProfileFields, update) == update
  {
  }
}
