/**
 * Creating a company account (src/app/sign-up/page.tsx): the form's checks,
 * the HR user it builds, `addUser` and then `login` with that user.
 */
module SignUp {
  import opened Wrappers
  import opened Text
  import opened Domain
  import Dates
  import Utils
  import Store

  datatype SignUpForm = SignUpForm(companyName: string, fullName: string, email: string, phone: string,
                                   password: string, confirmPassword: string)

  /** No field of the form is empty. */
  predicate Filled(form: SignUpForm) {
    form.companyName != "" && form.fullName != "" && form.email != "" && form.phone != ""
    && form.password != "" && form.confirmPassword != ""
  }

  predicate Accepted(form: SignUpForm) {
    Filled(form) && form.password == form.confirmPassword
  }

  /**
   * The new user: an active HR account whose employee id has this year and
   * serial 1 (`generateEmployeeId`'s defaults), with no picture of its own.
   */
  function NewAccount(form: SignUpForm, newId: Id, today: Dates.Date): (u: User)
    requires today.year >= 0
    ensures u.role == Hr && u.status == Active && u.id == newId && u.profilePicture.None?
    ensures u.email == form.email && u.fullName == form.fullName && u.createdAt == today
  {
    User(newId, Utils.GenerateEmployeeId(form.companyName, form.fullName, today.year, 1),
         form.email, form.fullName, Hr, Active, None, today)
  }

  /**
   * `handleSubmit`: an accepted form adds the account (without job
   * information, so the form's phone is not stored) and signs it in;
   * otherwise nothing changes. The signed-in user is the account as built,
   * without the avatar `addUser` gives the stored copy.
   */
  method Submit(auth: Store.AuthStore, data: Store.DataStore, form: SignUpForm, newId: Id,
                today: Dates.Date, todayIso: string, avatarIndex: nat)
    returns (created: bool)
    requires today.year >= 0 && avatarIndex < |Store.IndianAvatars|
    modifies auth, data
    ensures created <==> Accepted(form)
    ensures !created ==> unchanged(auth) && unchanged(data)
    ensures created ==> var u := NewAccount(form, newId, today);
      && data.users == old(data.users) + [Store.WithAvatar(u, Store.IndianAvatars[avatarIndex])]
      && data.leaveBalances == old(data.leaveBalances)[newId := Store.NewLeaveBalance]
      && data.profiles == old(data.profiles)[newId := Store.NewProfile(u, None)]
      && data.jobDetails == old(data.jobDetails)[newId := Store.NewJobDetails(newId, None, todayIso)]
      && auth.user == Some(u) && auth.isAuthenticated
    ensures unchanged(data`leaveRequests, data`attendance, data`notifications)
  {
    if !Filled(form) || form.password != form.confirmPassword {
      return false;
    }
    var u := NewAccount(form, newId, today);
    data.AddUser(u, None, avatarIndex, todayIso);
    auth.Login(u);
    created := true;
  }

  /**
   * Every sign-up id ends in serial 0001: within one year, two sign-ups
   * whose company and name prefixes agree get the same employee id.
   */
  lemma SignUpSerialIsOne(form: SignUpForm, newId: Id, today: Dates.Date)
    requires |form.companyName| >= 2 && 1000 <= today.year <= 9999
    ensures var id := NewAccount(form, newId, today).employeeId;
      && |id| == 14 && id[10..] == "0001"
  {
    var id := NewAccount(form, newId, today).employeeId;
    Utils.EmployeeIdFields(form.companyName, form.fullName, today.year, 1);
    DecimalRoundTrip(1);
    assert PadStart(NatToDecimal(1), 4, '0') == "0001";
  }

  /** The signed-up account starts with the defaults of `addUser`: the form's phone is dropped and there is no department. */
  lemma SignUpDefaults(form: SignUpForm, newId: Id, today: Dates.Date, todayIso: string)
    requires today.year >= 0
    ensures Store.NewProfile(NewAccount(form, newId, today), None).phone == Some("")
    ensures Store.NewJobDetails(newId, None, todayIso).department == ""
  {
  }
}
