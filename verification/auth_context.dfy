/**
 * The mock sign-in provider. It holds the signed-in user (or none) and a
 * loading flag; `Login` checks the identifier and password against three
 * fixed pairs, and `Logout` forgets the user.
 */
module AuthContext {
  import opened Types

  const AdminUser: User := User("1", "Admin User", AdminRole, None)
  const SomchaiUser: User := User("2", "สมชาย ใจดี", ClientRole, Some("client1"))
  const JohnUser: User := User("3", "John Smith", ClientRole, Some("client2"))

  /** The demonstration accounts, in the order the provider lists them. */
  const MockUsers: seq<User> := [AdminUser, SomchaiUser, JohnUser]

  /** A user the dashboard can scope: every client-role user names its client. */
  predicate WellFormedUser(u: User) {
    u.role == ClientRole ==> u.clientId.Some?
  }

  /** The accepted (identifier, password) pairs, in the order `login` tries them. */
  const Credentials: seq<(string, string)> :=
    [("admin", "admin"), ("1234567890123", "client1"), ("john@email.com", "client2")]

  /**
   * The credential check, as a function: exact, case-sensitive equality on
   * both the identifier and the password. Exactly the three fixed pairs
   * sign in, and every account they sign in is a well-formed demonstration
   * user.
   */
  function Authenticate(identifier: string, password: string): (r: Option<User>)
    ensures r.Some? <==> (identifier, password) in Credentials
    ensures r.Some? ==> r.value in MockUsers && WellFormedUser(r.value)
  {
    if identifier == "admin" && password == "admin" then Some(MockUsers[0])
    else if identifier == "1234567890123" && password == "client1" then Some(MockUsers[1])
    else if identifier == "john@email.com" && password == "client2" then Some(MockUsers[2])
    else None
  }

  /**
   * Each account has a single credential pair: two pairs that sign in the
   * same user are the same pair.
   */
  lemma AuthenticateInjective(i1: string, p1: string, i2: string, p2: string)
    requires Authenticate(i1, p1).Some? && Authenticate(i1, p1) == Authenticate(i2, p2)
    ensures i1 == i2 && p1 == p2
  {
  }

  /** The admin pair signs in the admin; the two client pairs sign in clients one and two. */
  lemma AuthenticateAccounts()
    ensures Authenticate("admin", "admin") == Some(AdminUser) && AdminUser.role == AdminRole
    ensures Authenticate("1234567890123", "client1").Some? &&
            Authenticate("1234567890123", "client1").value.clientId == Some("client1")
    ensures Authenticate("john@email.com", "client2").Some? &&
            Authenticate("john@email.com", "client2").value.clientId == Some("client2")
  {
  }

  /** The provider's state: `user` and `isLoading`. */
  class AuthProvider {
    var user: Option<User>
    var isLoading: bool

    /** Nobody signed in, nothing loading. */
    constructor ()
      ensures user == None && !isLoading
    {
      user := None;
      isLoading := false;
    }

    /**
     * `login`: marks loading, checks the pair, and on success replaces the
     * user; on failure the previous user stays signed in. Loading is off
     * again on every return.
     */
    method Login(identifier: string, password: string) returns (ok: bool)
      modifies this
      ensures ok <==> Authenticate(identifier, password).Some?
      ensures user == if ok then Authenticate(identifier, password) else old(user)
      ensures !isLoading
    {
      isLoading := true;
      if identifier == "admin" && password == "admin" {
        user := Some(MockUsers[0]);
        isLoading := false;
        return true;
      } else if identifier == "1234567890123" && password == "client1" {
        user := Some(MockUsers[1]);
        isLoading := false;
        return true;
      } else if identifier == "john@email.com" && password == "client2" {
        user := Some(MockUsers[2]);
        isLoading := false;
        return true;
      }
      isLoading := false;
      return false;
    }

    /** `logout`: forgets the user and touches nothing else. */
    method Logout()
      modifies this`user
      ensures user == None
    {
      user := None;
    }
  }

  /**
   * A session as the contracts above let a caller reason about it: a
   * failed attempt keeps the admin signed in, and logging out clears it
   * without touching the loading flag.
   */
  method SampleSession()
  {
    var auth := new AuthProvider();
    var ok := auth.Login("admin", "admin");
    assert ok && auth.user == Some(AdminUser);
    ok := auth.Login("admin", "Admin");
    assert !ok && auth.user == Some(AdminUser) && !auth.isLoading;
    auth.Logout();
    assert auth.user == None && !auth.isLoading;
  }
}
