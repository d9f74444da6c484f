/**
 * The account store: a list of registered users with their passwords (the
 * `arcade_users` storage slot), the session slot `arcade_user`, and the signed-in user.
 * Storage is modelled as two fields; the one-second delay of each call is left out.
 */
module Auth {
  import opened Wrappers
  import opened Text

  /** A registered account as stored, password included. */
  datatype StoredUser = StoredUser(id: string, username: string, email: string, password: string)

  /** The signed-in user as published and saved in the session slot: no password. */
  datatype User = User(id: string, username: string, email: string)

  function Public(u: StoredUser): (p: User)
    ensures p.id == u.id && p.username == u.username && p.email == u.email
  {
    User(u.id, u.username, u.email)
  }

  predicate HasEmail(users: seq<StoredUser>, email: string)
    ensures HasEmail(users, email) <==> exists u :: u in users && u.email == email
  {
    exists i :: 0 <= i < |users| && users[i].email == email
  }

  predicate Matches(u: StoredUser, email: string, password: string)
    ensures Matches(u, email, password) ==> Public(u).email == email
  {
    u.email == email && u.password == password
  }

  /** `users.find(u => u.email === email && u.password === password)`: the first match, if any. */
  function FindCredentials(users: seq<StoredUser>, email: string, password: string): (r: Option<nat>)
    ensures r.None? <==> forall i :: 0 <= i < |users| ==> !Matches(users[i], email, password)
    ensures r.Some? ==> (
      && r.value < |users| && Matches(users[r.value], email, password)
      && forall i :: 0 <= i < r.value ==> !Matches(users[i], email, password))
    decreases |users|
  {
    if users == [] then None
    else if Matches(users[0], email, password) then Some(0)
    else
      var rest := FindCredentials(users[1..], email, password);
      if rest.None? then None else Some(rest.value + 1)
  }

  /** No two accounts share an email address. */
  predicate UniqueEmails(users: seq<StoredUser>)
  {
    forall i, j :: 0 <= i < j < |users| ==> users[i].email != users[j].email
  }

  /** The decimal string `Date.now().toString()` gives as a new account's id. */
  function NewId(clock: nat): (id: string)
    ensures |id| >= 1 && AllDigits(id)
  {
    DecimalString(clock)
  }

  /** The list a successful registration leaves: the new account appended at the end. */
  function Registered(users: seq<StoredUser>, username: string, email: string, password: string, clock: nat): (r: seq<StoredUser>)
    ensures |r| == |users| + 1 && r[..|users|] == users
    ensures r[|users|].id == NewId(clock) && r[|users|].username == username
    ensures r[|users|].email == email && r[|users|].password == password
  {
    users + [StoredUser(NewId(clock), username, email, password)]
  }

  /** Registering an email no one has keeps the emails distinct. */
  lemma RegisterKeepsEmailsUnique(users: seq<StoredUser>, username: string, email: string, password: string, clock: nat)
    requires UniqueEmails(users) && !HasEmail(users, email)
    ensures UniqueEmails(Registered(users, username, email, password, clock))
  {
    var r := Registered(users, username, email, password, clock);
    forall i, j | 0 <= i < j < |r|
      ensures r[i].email != r[j].email
    {
      if j == |users| {
        assert r[i] == users[i];
      }
    }
  }

  /** Logging in right after registering, with the same email and password, finds the new account. */
  lemma RegisterThenLogin(users: seq<StoredUser>, username: string, email: string, password: string, clock: nat)
    requires !HasEmail(users, email)
    ensures var r := Registered(users, username, email, password, clock);
      FindCredentials(r, email, password) == Some(|users|)
  {
    var r := Registered(users, username, email, password, clock);
    forall i | 0 <= i < |users|
      ensures !Matches(r[i], email, password)
    {
      assert r[i] == users[i];
    }
    assert Matches(r[|users|], email, password);
  }

  /** With distinct emails, a login matches the one account with that email and password, if any. */
  lemma LoginFindsTheAccount(users: seq<StoredUser>, email: string, password: string, k: nat)
    requires UniqueEmails(users) && k < |users| && Matches(users[k], email, password)
    ensures FindCredentials(users, email, password) == Some(k)
  {
  }

  class AuthStore {
    /** The `arcade_users` slot. */
    var users: seq<StoredUser>
    /** The `arcade_user` slot. */
    var session: Option<User>
    /** The published `user` state. */
    var user: Option<User>
    var isLoading: bool

    /** The provider as first rendered: nobody signed in, still loading, over whatever storage holds. */
    constructor (storedUsers: seq<StoredUser>, storedSession: Option<User>)
      ensures users == storedUsers && session == storedSession && user.None? && isLoading
    {
      users, session, user, isLoading := storedUsers, storedSession, None, true;
    }

    /** The mount effect: restore the saved session, if there is one, and stop loading. */
    method RestoreSession()
      modifies this
      ensures !isLoading
      ensures session.Some? ==> user == session
      ensures session.None? ==> user == old(user)
      ensures users == old(users) && session == old(session)
    {
      if session.Some? {
        user := session;
      }
      isLoading := false;
    }

    /**
     * `login`: with matching credentials the first matching account becomes the user and
     * the session; otherwise the call fails and nothing changes.
     */
    method Login(email: string, password: string) returns (ok: bool)
      modifies this
      ensures users == old(users) && isLoading == old(isLoading)
      ensures ok <==> exists i :: 0 <= i < |users| && Matches(users[i], email, password)
      ensures ok ==> var k := FindCredentials(users, email, password).value;
        user == Some(Public(users[k])) && session == user
      ensures !ok ==> user == old(user) && session == old(session)
    {
      var found := FindCredentials(users, email, password);
      if found.None? {
        return false;
      }
      var userData := Public(users[found.value]);
      user := Some(userData);
      session := Some(userData);
      ok := true;
    }

    /**
     * `register`: an email that is already registered fails and changes nothing;
     * otherwise one account is appended, with the clock reading as its id, and becomes
     * the user and the session, without its password.
     */
    method Register(username: string, email: string, password: string, clock: nat) returns (ok: bool)
      modifies this
      ensures isLoading == old(isLoading)
      ensures UniqueEmails(old(users)) ==> UniqueEmails(users)
      ensures ok <==> !HasEmail(old(users), email)
      ensures ok ==> (
        && users == Registered(old(users), username, email, password, clock)
        && user == Some(User(NewId(clock), username, email)) && session == user)
      ensures !ok ==> users == old(users) && user == old(user) && session == old(session)
    {
      if HasEmail(users, email) {
        return false;
      }
      if UniqueEmails(users) {
        RegisterKeepsEmailsUnique(users, username, email, password, clock);
      }
      var newUser := StoredUser(NewId(clock), username, email, password);
      users := users + [newUser];
      var userData := Public(newUser);
      user := Some(userData);
      session := Some(userData);
      ok := true;
    }

    /** `logout`: nobody signed in and no saved session; the accounts stay. */
    method Logout()
      modifies this
      ensures user.None? && session.None?
      ensures users == old(users) && isLoading == old(isLoading)
    {
      user := None;
      session := None;
    }
  }
}
