/**
 * Signing in (src/app/sign-in/page.tsx): the account lookup by e-mail or
 * employee id, the HR/Admin tab's role gate, and the form's presence check.
 * The password is taken but never compared with anything, so no member here
 * depends on it.
 */
module SignIn {
  import opened Wrappers
  import opened Text
  import opened Domain
  import Seqs
  import Store

  /** The login text names the account: its e-mail or its employee id, ignoring case. */
  predicate Identifies(u: User, login: string) {
    Lower(u.email) == Lower(login) || Lower(u.employeeId) == Lower(login)
  }

  /** `users.find(...)`: the first account the login text names. */
  function FindAccount(users: seq<User>, login: string): (r: Option<User>)
    ensures r.Some? ==> r.value in users && Identifies(r.value, login)
    ensures r.None? <==> forall i :: 0 <= i < |users| ==> !Identifies(users[i], login)
  {
    Seqs.Find(users, (u: User) => Identifies(u, login))
  }

  predicate HasAdminAccess(role: Role) {
    role == Hr || role == Admin
  }

  /**
   * The user `performLogin` signs in: the account found, unless the HR or
   * admin tab was used and the account has neither role.
   */
  function LoginOutcome(users: seq<User>, login: string, requested: Role): (r: Option<User>)
    ensures r.Some? ==> r == FindAccount(users, login)
    ensures r.Some? <==>
      FindAccount(users, login).Some? && (HasAdminAccess(requested) ==> HasAdminAccess(FindAccount(users, login).value.role))
  {
    var found := FindAccount(users, login);
    if found.Some? && HasAdminAccess(requested) && !HasAdminAccess(found.value.role) then None else found
  }

  /** `performLogin`: sign in the outcome's user, if any; the password plays no part. */
  method PerformLogin(auth: Store.AuthStore, users: seq<User>, login: string, password: string, requested: Role)
    returns (ok: bool)
    modifies auth
    ensures ok <==> LoginOutcome(users, login, requested).Some?
    ensures ok ==> auth.user == LoginOutcome(users, login, requested) && auth.isAuthenticated
    ensures !ok ==> unchanged(auth)
  {
    var found := FindAccount(users, login);
    if found.None? {
      return false;
    }
    if HasAdminAccess(requested) && !HasAdminAccess(found.value.role) {
      return false;
    }
    auth.Login(found.value);
    ok := true;
  }

  datatype Tab = EmployeeTab | AdminTab

  /** The role the active tab asks for: `hr` on the admin tab, `employee` otherwise. */
  function TabRole(tab: Tab): Role {
    if tab == AdminTab then Hr else Employee
  }

  /** `handleSubmit`: an empty login or password is refused without a lookup. */
  method HandleSubmit(auth: Store.AuthStore, users: seq<User>, tab: Tab, login: string, password: string)
    returns (ok: bool)
    modifies auth
    ensures login == "" || password == "" ==> !ok
    ensures !ok ==> unchanged(auth)
    ensures login != "" && password != "" ==>
      (ok <==> LoginOutcome(users, login, TabRole(tab)).Some?)
      && (ok ==> auth.user == LoginOutcome(users, login, TabRole(tab)))
  {
    if login == "" || password == "" {
      return false;
    }
    ok := PerformLogin(auth, users, login, password, TabRole(tab));
  }

  /** The first account in list order that the login names is the one signed in. */
  lemma FirstMatchSignsIn(users: seq<User>, login: string, k: nat)
    requires k < |users| && Identifies(users[k], login)
    requires forall j :: 0 <= j < k ==> !Identifies(users[j], login)
    ensures FindAccount(users, login) == Some(users[k])
  {
    Seqs.FindFirst(users, (u: User) => Identifies(u, login), k);
  }

  /** The employee tab lets every account in; the admin tab refuses exactly the employees. */
  lemma TabsGate(users: seq<User>, login: string)
    ensures LoginOutcome(users, login, TabRole(EmployeeTab)) == FindAccount(users, login)
    ensures LoginOutcome(users, login, TabRole(AdminTab)).None? <==>
      FindAccount(users, login).None? || FindAccount(users, login).value.role == Employee
  {
  }

  /** The login text's case does not matter. */
  lemma LoginIgnoresCase(users: seq<User>, login: string, requested: Role)
    ensures LoginOutcome(users, Lower(login), requested) == LoginOutcome(users, login, requested)
  {
    LowerIdempotent(login);
    Seqs.FindAgrees(users, (u: User) => Identifies(u, Lower(login)), (u: User) => Identifies(u, login));
  }
}
