/** The login state machine: a fixed table of demo accounts and a service holding the
    signed-in user. Persisting that user in browser storage is replaced by a
    constructor parameter carrying whatever was stored. */
module Auth {
  import opened Common

  datatype Role = Admin | Kasir

  datatype User = User(id: string, username: string, role: Role, name: string)

  datatype Credentials = Credentials(username: string, password: string)

  /** One entry of the account table: the user and the password that unlocks it. */
  datatype UserRecord = UserRecord(user: User, password: string)

  /** `DEMO_USERS`, keyed by user name. */
  const DemoUsers: map<string, UserRecord> := map[
    "admin" := UserRecord(User("admin-1", "admin", Admin, "Administrator"), "admin123"),
    "kasir" := UserRecord(User("kasir-1", "kasir", Kasir, "Kasir 1"), "kasir123")
  ]

  /** The one error message `login` gives, whatever was wrong. */
  const LoginError: string := "Username atau password salah"

  datatype LoginResult = Success(user: User) | Failure(error: string)

  /** The decision `login` makes: the table's user when the name is a key of the table
      and the password is that entry's, and the single error otherwise. */
  function CheckCredentials(c: Credentials): (r: LoginResult)
    ensures r.Failure? ==> r.error == LoginError
    ensures r.Success? ==> r.user.username == c.username
  {
    if c.username in DemoUsers && DemoUsers[c.username].password == c.password
    then Success(DemoUsers[c.username].user)
    else Failure(LoginError)
  }

  /** The table, spelled out: exactly two name and password pairs log in, "admin" as
      the administrator and "kasir" as the cashier. */
  lemma LoginTable(c: Credentials)
    ensures CheckCredentials(c).Success? <==>
      c == Credentials("admin", "admin123") || c == Credentials("kasir", "kasir123")
    ensures c == Credentials("admin", "admin123") ==>
      CheckCredentials(c) == Success(User("admin-1", "admin", Admin, "Administrator"))
    ensures c == Credentials("kasir", "kasir123") ==>
      CheckCredentials(c) == Success(User("kasir-1", "kasir", Kasir, "Kasir 1"))
  {
    if c.username in DemoUsers {
      assert c.username == "admin" || c.username == "kasir";
    }
  }

  /** A right name with a wrong password fails just like an unknown name. */
  lemma WrongPasswordFails(c: Credentials)
    requires c.username in DemoUsers && c.password != DemoUsers[c.username].password
    ensures CheckCredentials(c) == Failure(LoginError)
    ensures CheckCredentials(c) == CheckCredentials(Credentials("", c.password))
  {
    assert "" !in DemoUsers;
  }

  class AuthService {
    var currentUser: Option<User>

    /** The service starts with the user left in storage by an earlier login, if any. */
    constructor (stored: Option<User>)
      ensures currentUser == stored
    {
      currentUser := stored;
    }

    /** `login`: on success the table's user becomes the current one; on failure
        nothing changes. */
    method Login(c: Credentials) returns (r: LoginResult)
      modifies this
      ensures r == CheckCredentials(c)
      ensures r.Success? ==> currentUser == Some(r.user)
      ensures r.Failure? ==> currentUser == old(currentUser)
    {
      if c.username !in DemoUsers || DemoUsers[c.username].password != c.password {
        return Failure(LoginError);
      }
      currentUser := Some(DemoUsers[c.username].user);
      r := Success(DemoUsers[c.username].user);
    }

    /** `logout`: no current user, so nobody is authenticated. */
    method Logout()
      modifies this
      ensures currentUser == None
      ensures !IsAuthenticated()
    {
      currentUser := None;
    }

    /** `isAuthenticated`: someone is signed in, that is, the current user has one of
        the two roles. */
    predicate IsAuthenticated(): (b: bool)
      reads this
      ensures b <==> HasRole(Admin) || HasRole(Kasir)
    {
      currentUser != None
    }

    /** `hasRole(role)`: someone is signed in and has that role. */
    function HasRole(role: Role): (b: bool)
      reads this
      ensures b ==> currentUser != None
    {
      currentUser.Some? && currentUser.value.role == role
    }

    /** `canAccess(roles)`: someone is signed in and their role is one of `roles`. */
    function CanAccess(roles: seq<Role>): (b: bool)
      reads this
      ensures b ==> IsAuthenticated()
      ensures b <==> exists i :: 0 <= i < |roles| && HasRole(roles[i])
    {
      currentUser.Some? && currentUser.value.role in roles
    }
  }

  /** Access needs a signed-in user: with none, nothing is granted; with one, an empty
      role list grants nothing and a list naming both roles grants everything. */
  lemma AccessFacts(a: AuthService, roles: seq<Role>)
    ensures !a.IsAuthenticated() ==> !a.CanAccess(roles) && !a.HasRole(Admin) && !a.HasRole(Kasir)
    ensures !a.CanAccess([])
    ensures a.CanAccess([Admin, Kasir]) <==> a.IsAuthenticated()
    ensures a.IsAuthenticated() ==> (a.HasRole(Admin) <==> !a.HasRole(Kasir))
  {
    var both := [Admin, Kasir];
    if a.IsAuthenticated() {
      assert a.HasRole(both[0]) || a.HasRole(both[1]);
    }
  }
}
