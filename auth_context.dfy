/**
 * Mock authentication (contexts/AuthContext.tsx): a mutable list of known users,
 * the provider's AuthState, and the browser's stored 'user' record.
 */
module AuthContext {
  import opened Common
  import opened Types

  /** The one password every account accepts. */
  const DemoPassword := "password"

  const AdminEmail := "admin@grapher.com"
  const UserEmail := "user@grapher.com"

  /** The two demonstration accounts the list starts with. */
  const MockUsers: seq<User> := [
    User("1", AdminEmail, "Admin User", AdminRole, "2024-01-01T00:00:00Z", Some("2024-01-15T10:30:00Z")),
    User("2", UserEmail, "Regular User", UserRole, "2024-01-02T00:00:00Z", Some("2024-01-15T09:15:00Z"))]

  /** What the 'user' key of local storage holds: a user serialised as JSON, or text that does not parse. */
  datatype StoredRecord = UserJson(user: User) | Unparseable

  /** The record written for the signed-in user; nothing when signed out. */
  function RecordFor(user: Option<User>): Option<StoredRecord> {
    match user
    case Some(u) => Some(UserJson(u))
    case None => None
  }

  /** `users.find(u => u.email === email)` */
  function FindByEmail(users: seq<User>, email: string): (r: Option<User>)
    ensures r.None? <==> forall i :: 0 <= i < |users| ==> users[i].email != email
    ensures r.Some? ==> r.value in users && r.value.email == email
  {
    if users == [] then None
    else if users[0].email == email then Some(users[0])
    else FindByEmail(users[1..], email)
  }

  /** `find` returns the first user with the email. */
  lemma {:induction false} FindByEmailFirst(users: seq<User>, email: string, i: nat)
    requires i < |users| && users[i].email == email
    requires forall j :: 0 <= j < i ==> users[j].email != email
    ensures FindByEmail(users, email) == Some(users[i])
  {
    if i > 0 {
      FindByEmailFirst(users[1..], email, i - 1);
    }
  }

  /** No two users share an email. */
  predicate DistinctEmails(users: seq<User>) {
    forall i, j :: 0 <= i < j < |users| ==> users[i].email != users[j].email
  }

  /** Login accepts exactly when the email is known and the password is the demo password. */
  function CanLogin(users: seq<User>, email: string, password: string): (ok: bool)
    ensures ok <==> (exists i :: 0 <= i < |users| && users[i].email == email) && password == DemoPassword
  {
    FindByEmail(users, email).Some? && password == DemoPassword
  }

  /** The account register creates: the given email and name, role 'user', no last login; the password is not kept. */
  function NewUser(id: string, email: string, name: string, now: string): (u: User)
    ensures u.email == email && u.name == name && u.id == id && u.createdAt == now
    ensures u.role == UserRole && u.lastLogin.None?
  {
    User(id, email, name, UserRole, now, None)
  }

  /** In a list extended by a user with a new email, that email finds the new user and every other email finds what it found before. */
  lemma {:induction false} FindByEmailAppend(users: seq<User>, u: User, email: string)
    requires FindByEmail(users, u.email).None?
    ensures FindByEmail(users + [u], email) ==
              if email == u.email then Some(u) else FindByEmail(users, email)
  {
    if users == [] {
      assert users + [u] == [u];
    } else {
      assert (users + [u])[1..] == users[1..] + [u];
      if users[0].email != email {
        FindByEmailAppend(users[1..], u, email);
      }
    }
  }

  /** After registering, the account logs in with the demo password and with nothing else, whatever password was registered. */
  lemma RegisteredLoginNeedsDemoPassword(users: seq<User>, id: string, email: string, name: string, now: string, password: string)
    requires FindByEmail(users, email).None?
    ensures CanLogin(users + [NewUser(id, email, name, now)], email, password) <==> password == DemoPassword
  {
    FindByEmailAppend(users, NewUser(id, email, name, now), email);
  }

  /** Both demonstration accounts log in with the demo password. */
  lemma MockAccountsLogIn()
    ensures CanLogin(MockUsers, AdminEmail, DemoPassword)
    ensures CanLogin(MockUsers, UserEmail, DemoPassword)
    ensures FindByEmail(MockUsers, AdminEmail).value.role == AdminRole
    ensures DistinctEmails(MockUsers)
  {
  }

  class AuthProvider {
    /** The module-level list of known users; register pushes onto it. */
    var users: seq<User>
    var state: AuthState
    /** Local storage's 'user' key. */
    var stored: Option<StoredRecord>

    /**
     * Emails are unique; a user is present exactly when authenticated; nobody is
     * signed in while loading; and once loaded, storage holds exactly the signed-in user.
     */
    ghost predicate Valid()
      reads this
    {
      && DistinctEmails(users)
      && (state.isAuthenticated <==> state.user.Some?)
      && (state.loading ==> state.user.None?)
      && (!state.loading ==> stored == RecordFor(state.user))
    }

    /** The provider at page load, before the startup effect has read storage. */
    constructor (storage: Option<StoredRecord>)
      ensures Valid()
      ensures users == MockUsers && stored == storage
      ensures state == AuthState(None, false, true)
    {
      users := MockUsers;
      state := AuthState(None, false, true);
      stored := storage;
      MockAccountsLogIn();
    }

    /** The startup effect: restore the session from storage, dropping a record that does not parse. */
    method Restore()
      requires Valid()
      modifies this
      ensures Valid() && users == old(users) && !state.loading
      ensures old(stored) == None ==> state == old(state).(loading := false) && stored == None
      ensures old(stored) == Some(Unparseable) ==> state == AuthState(None, false, false) && stored == None
      ensures forall u :: old(stored) == Some(UserJson(u)) ==>
                state == AuthState(Some(u), true, false) && stored == old(stored)
    {
      match stored {
        case None =>
          state := state.(loading := false);
        case Some(UserJson(u)) =>
          state := AuthState(Some(u), true, false);
        case Some(Unparseable) =>
          stored := None;
          state := AuthState(None, false, false);
      }
    }

    method Login(email: string, password: string, now: string) returns (ok: bool)
      requires Valid()
      modifies this
      ensures Valid() && users == old(users)
      ensures ok == CanLogin(old(users), email, password)
      ensures !ok ==> state == old(state) && stored == old(stored)
      ensures ok ==> var u := FindByEmail(old(users), email).value.(lastLogin := Some(now));
                     state == AuthState(Some(u), true, false) && stored == Some(UserJson(u))
    {
      var found := FindByEmail(users, email);
      if found.Some? && password == DemoPassword {
        var updated := found.value.(lastLogin := Some(now));
        stored := Some(UserJson(updated));
        state := AuthState(Some(updated), true, false);
        return true;
      }
      return false;
    }

    method Logout()
      requires Valid()
      modifies this
      ensures Valid() && users == old(users)
      ensures stored == None && state == AuthState(None, false, false)
    {
      stored := None;
      state := AuthState(None, false, false);
    }

    /** Adds a user with a new email and signs in as that user; a known email is refused. */
    method Register(email: string, password: string, name: string, id: string, now: string) returns (ok: bool)
      requires Valid()
      modifies this
      ensures Valid()
      ensures ok <==> FindByEmail(old(users), email).None?
      ensures !ok ==> users == old(users) && state == old(state) && stored == old(stored)
      ensures ok ==> users == old(users) + [NewUser(id, email, name, now)]
      ensures ok ==> state == AuthState(Some(NewUser(id, email, name, now)), true, false)
      ensures ok ==> stored == Some(UserJson(NewUser(id, email, name, now)))
    {
      if FindByEmail(users, email).Some? {
        return false;
      }
      var newUser := NewUser(id, email, name, now);
      users := users + [newUser];
      stored := Some(UserJson(newUser));
      state := AuthState(Some(newUser), true, false);
      return true;
    }
  }
}
