/** The user table and session (`AuthService`): a stored user list seeded with
    two default accounts, registration with a duplicate-email check, login by
    the first account matching email and password, logout, and the admin test. */
module Auth {
  import opened Seqs
  import opened Model

  datatype LoginOutcome = MissingCredentials | InvalidCredentials | LoggedIn

  /** No two accounts share an email address. */
  predicate DistinctEmails(users: seq<User>) {
    forall i, j :: 0 <= i < j < |users| ==> users[i].email != users[j].email
  }

  /** The two accounts `getUsers` seeds when storage holds no user list. */
  function DefaultUsers(): (r: seq<User>)
    ensures |r| == 2 && DistinctEmails(r)
    ensures r[0].id == "1" && r[0].role == RoleAdmin
    ensures r[1].id == "2" && r[1].role == RoleUser
  {
    [ User("1", "admin@example.com", "admin123", RoleAdmin, "Admin User"),
      User("2", "user@example.com", "user123", RoleUser, "Regular User") ]
  }

  /** The list `getUsers` returns for what storage holds (`None`: no entry). */
  function UsersOrDefault(stored: Option<seq<User>>): seq<User> {
    if stored.Some? then stored.value else DefaultUsers()
  }

  /** Whether some account already uses the email. */
  function EmailTaken(users: seq<User>, email: string): (r: bool)
    ensures r <==> exists i :: 0 <= i < |users| && users[i].email == email
  {
    FindIndex(users, (u: User) => u.email == email).Some?
  }

  predicate Credentials(u: User, email: string, password: string) {
    u.email == email && u.password == password
  }

  /** The login lookup: the first account whose email and password both match. */
  function FindUser(users: seq<User>, email: string, password: string): (r: Option<User>)
    ensures r.None? <==> forall i :: 0 <= i < |users| ==> !Credentials(users[i], email, password)
    ensures r.Some? ==> exists i :: 0 <= i < |users| && users[i] == r.value
                                    && Credentials(users[i], email, password)
                                    && forall j :: 0 <= j < i ==> !Credentials(users[j], email, password)
  {
    match FindIndex(users, (u: User) => Credentials(u, email, password))
    case None => None
    case Some(i) => Some(users[i])
  }

  /** With distinct emails, logging in with an account's email succeeds exactly
      when the password is that account's, and yields that account. */
  lemma {:induction false} FindUserByEmail(users: seq<User>, i: nat, password: string)
    requires DistinctEmails(users) && i < |users|
    ensures FindUser(users, users[i].email, password) ==
              if users[i].password == password then Some(users[i]) else None
  {
    var email := users[i].email;
    forall j | 0 <= j < |users| && j != i ensures !Credentials(users[j], email, password) {
      if j < i { assert users[j].email != users[i].email; }
      else { assert users[i].email != users[j].email; }
    }
  }

  /** Appending an account whose email is not taken keeps emails distinct. */
  lemma RegisterKeepsEmailsDistinct(users: seq<User>, u: User)
    requires DistinctEmails(users) && !EmailTaken(users, u.email)
    ensures DistinctEmails(users + [u])
  {
    var all := users + [u];
    forall i, j | 0 <= i < j < |all| ensures all[i].email != all[j].email {
      if j == |users| {
        assert all[i] == users[i];
      } else {
        assert all[i] == users[i] && all[j] == users[j];
      }
    }
  }

  class AuthService {
    /** The `users` entry of local storage; `None` while it is absent. */
    var stored: Option<seq<User>>
    var currentUser: Option<User>

    ghost predicate Valid()
      reads this
    {
      stored.Some? ==> DistinctEmails(stored.value)
    }

    /** `checkSession`: resume the session saved in storage, if any. */
    constructor (session: Option<User>, storedUsers: Option<seq<User>>)
      requires storedUsers.Some? ==> DistinctEmails(storedUsers.value)
      ensures Valid()
      ensures currentUser == session && stored == storedUsers
    {
      currentUser := session;
      stored := storedUsers;
    }

    /** `isAdmin`: someone is logged in and that account has the Admin role. */
    predicate IsAdmin()
      reads this
      ensures IsAdmin() ==> currentUser.Some?
      ensures currentUser.Some? ==> (IsAdmin() <==> currentUser.value.role == RoleAdmin)
    {
      match currentUser
      case None => false
      case Some(u) => u.role == RoleAdmin
    }

    /** `getUsers`: the stored list, seeding (and storing) the defaults when there is none. */
    method GetUsers() returns (users: seq<User>)
      requires Valid()
      modifies this`stored
      ensures Valid()
      ensures users == UsersOrDefault(old(stored)) && stored == Some(users)
      ensures old(stored).None? ==> users == DefaultUsers()
    {
      if stored.None? {
        stored := Some(DefaultUsers());
      }
      users := stored.value;
    }

    /** `login`: with both fields given, log in as the first account matching them. */
    method Login(email: string, password: string) returns (outcome: LoginOutcome)
      requires Valid()
      modifies this
      ensures Valid()
      ensures outcome == MissingCredentials <==> email == "" || password == ""
      ensures outcome == MissingCredentials ==> stored == old(stored) && currentUser == old(currentUser)
      ensures outcome != MissingCredentials ==> stored == Some(UsersOrDefault(old(stored)))
      ensures outcome != MissingCredentials ==>
        var found := FindUser(UsersOrDefault(old(stored)), email, password);
        && (outcome == LoggedIn <==> found.Some?)
        && currentUser == if found.Some? then found else old(currentUser)
    {
      if email == "" || password == "" {
        return MissingCredentials;
      }
      var users := GetUsers();
      var user := FindUser(users, email, password);
      if user.Some? {
        currentUser := user;
        outcome := LoggedIn;
      } else {
        outcome := InvalidCredentials;
      }
    }

    /** `logout`: end the session. */
    method Logout()
      requires Valid()
      modifies this`currentUser
      ensures Valid()
      ensures currentUser.None? && !IsAdmin()
    {
      currentUser := None;
    }

    /** `register`: refuse an email already in use; otherwise append the account
        with a fresh id. Either way the user list is materialised in storage. */
    method Register(draft: UserDraft, freshId: string) returns (ok: bool)
      requires Valid()
      requires forall i :: 0 <= i < |UsersOrDefault(stored)| ==> UsersOrDefault(stored)[i].id != freshId
      modifies this`stored
      ensures Valid()
      ensures ok <==> !EmailTaken(UsersOrDefault(old(stored)), draft.email)
      ensures !ok ==> stored == Some(UsersOrDefault(old(stored)))
      ensures ok ==> stored == Some(UsersOrDefault(old(stored)) +
                                    [User(freshId, draft.email, draft.password, draft.role, draft.name)])
    {
      var users := GetUsers();
      if EmailTaken(users, draft.email) {
        return false;
      }
      var newUser := User(freshId, draft.email, draft.password, draft.role, draft.name);
      RegisterKeepsEmailsDistinct(users, newUser);
      stored := Some(users + [newUser]);
      ok := true;
    }
  }
}
