/**
 * The login/logout controller of app/api_1_0/controller.py. Logging in validates
 * the email and then the password, looks the account up and appends a session;
 * logging out removes a session. The two lookups are modelled as the code runs them:
 * each returns from inside its loop on the first entry that it examines.
 */
module Controller {
  import opened Wrappers
  import opened Text
  import opened Validators

  /** The dict an account's email maps to: its 'Password' and its 'Id'. */
  datatype Account = Account(password: string, id: int)

  /** One user dict of the accounts list, as its (key, value) items in insertion order. */
  type User = seq<(string, Account)>

  /** One {'Email': ..., 'Id': ...} dict of the sessions list. */
  datatype Session = Session(email: string, id: int)

  const UserNotFound := "User not found in our database"
  const BadCombination := "Invalid password/email combination"
  const LoggedOut := "Successfuly logged out"
  const NotLoggedIn := "That user is not logged in"

  /** What login returns: the sessions list, a refusal message, or the validator errors. */
  datatype LoginReply = LoggedIn(sessions: seq<Session>) | Refused(message: string) | Invalid(errors: seq<string>) {
    predicate Status() { LoggedIn? }
  }

  /** What logout returns. */
  datatype LogoutReply = LogoutReply(status: bool, message: string)

  /** User i is the first user dict with any items. */
  ghost predicate FirstNonEmpty(users: seq<User>, i: int) {
    0 <= i < |users| && users[i] != [] && forall j :: 0 <= j < i ==> users[j] == []
  }

  /** The lookup find_user performs: empty user dicts are passed over, and the first
      item of the first non-empty one decides the answer. */
  function FindUserAsWritten(email: string, users: seq<User>): (r: Option<Account>)
    ensures r.Some? ==> exists user :: user in users && user != [] && user[0] == (email, r.value)
  {
    if users == [] then None
    else if users[0] == [] then FindUserAsWritten(email, users[1..])
    else if users[0][0].0 == email then Some(users[0][0].1)
    else None
  }

  /** find_user finds an account exactly when the first key of the first non-empty
      user dict is the email, and then returns that key's value. */
  lemma {:induction false} FindUserAsWrittenIff(email: string, users: seq<User>, a: Account)
    ensures FindUserAsWritten(email, users) == Some(a) <==>
            exists i :: FirstNonEmpty(users, i) && users[i][0] == (email, a)
  {
    if users != [] {
      var rest := users[1..];
      FindUserAsWrittenIff(email, rest, a);
      if users[0] == [] {
        if exists i :: FirstNonEmpty(users, i) && users[i][0] == (email, a) {
          var i :| FirstNonEmpty(users, i) && users[i][0] == (email, a);
          assert FirstNonEmpty(rest, i - 1) && rest[i - 1][0] == (email, a);
        }
        if exists i :: FirstNonEmpty(rest, i) && rest[i][0] == (email, a) {
          var i :| FirstNonEmpty(rest, i) && rest[i][0] == (email, a);
          assert FirstNonEmpty(users, i + 1) && users[i + 1][0] == (email, a);
        }
      } else {
        assert FirstNonEmpty(users, 0);
        forall i | FirstNonEmpty(users, i)
          ensures i == 0
        {
        }
      }
    }
  }

  /** The lookup find_user was evidently meant to perform: the value of the first
      item, in any user dict, whose key is the email. */
  function LookupAccount(email: string, users: seq<User>): (r: Option<Account>)
    ensures r.Some? <==> exists i, k :: 0 <= i < |users| && 0 <= k < |users[i]| && users[i][k].0 == email
    ensures r.Some? ==> exists i, k :: 0 <= i < |users| && 0 <= k < |users[i]| && users[i][k] == (email, r.value)
  {
    if users == [] then None
    else
      match LookupItems(email, users[0])
      case Some(a) => Some(a)
      case None =>
        var r := LookupAccount(email, users[1..]);
        assert forall i, k :: 1 <= i < |users| && 0 <= k < |users[i]| ==> users[i][k] == users[1..][i - 1][k];
        r
  }

  /** The value of the first item of one user dict whose key is the email. */
  function LookupItems(email: string, items: User): (r: Option<Account>)
    ensures r.Some? <==> exists k :: 0 <= k < |items| && items[k].0 == email
    ensures r.Some? ==> exists k :: 0 <= k < |items| && items[k] == (email, r.value)
  {
    if items == [] then None
    else if items[0].0 == email then Some(items[0].1)
    else
      var r := LookupItems(email, items[1..]);
      assert forall k :: 1 <= k < |items| ==> items[k] == items[1..][k - 1];
      r
  }

  /** Whatever find_user finds is what the intended lookup finds. */
  lemma {:induction false} FindUserAsWrittenSound(email: string, users: seq<User>)
    ensures FindUserAsWritten(email, users).Some? ==> LookupAccount(email, users) == FindUserAsWritten(email, users)
  {
    if users != [] {
      if users[0] == [] {
        assert LookupItems(email, users[0]) == None;
        FindUserAsWrittenSound(email, users[1..]);
      } else if users[0][0].0 == email {
        assert LookupItems(email, users[0]) == Some(users[0][0].1);
      }
    }
  }

  /** An account registered second is never found: find_user answers None where
      the intended lookup finds it. */
  lemma FindUserMissesSecondAccount(first: Account, second: Account)
    ensures var users := [[("first@example.com", first)], [("second@example.com", second)]];
            FindUserAsWritten("second@example.com", users) == None
            && LookupAccount("second@example.com", users) == Some(second)
  {
    var users := [[("first@example.com", first)], [("second@example.com", second)]];
    assert "first@example.com"[0] != "second@example.com"[0];
    assert users[1..] == [[("second@example.com", second)]] && users[1..][1..] == [];
  }

  /** find_user */
  method FindUser(email: string, users: seq<User>) returns (r: Option<Account>)
    ensures r == FindUserAsWritten(email, users)
  {
    var i := 0;
    while i < |users|
      invariant 0 <= i <= |users|
      invariant FindUserAsWritten(email, users[i..]) == FindUserAsWritten(email, users)
    {
      var user := users[i];
      // The loop over the user's items returns on its first pass, whichever way
      // the key compares; a user with no items is passed over.
      if user != [] {
        var (key, value) := user[0];
        if key == email {
          return Some(value);
        }
        return None;
      }
      assert users[i..][1..] == users[i + 1..];
      i := i + 1;
    }
    return None;
  }

  /** The intended find_user: a scan of every item of every user dict. */
  method FindUserIntended(email: string, users: seq<User>) returns (r: Option<Account>)
    ensures r == LookupAccount(email, users)
  {
    var i := 0;
    while i < |users|
      invariant 0 <= i <= |users|
      invariant LookupAccount(email, users[i..]) == LookupAccount(email, users)
    {
      var user := users[i];
      var k := 0;
      while k < |user|
        invariant 0 <= k <= |user|
        invariant LookupItems(email, user[k..]) == LookupItems(email, user)
      {
        if user[k].0 == email {
          return Some(user[k].1);
        }
        assert user[k..][1..] == user[k + 1..];
        k := k + 1;
      }
      assert users[i..][1..] == users[i + 1..];
      i := i + 1;
    }
    return None;
  }

  /** The sessions list login appends to and logout removes from. */
  class SessionList {
    var entries: seq<Session>

    constructor ()
      ensures entries == []
    {
      entries := [];
    }
  }

  /** A Controller is a UserValidators: validators holds the inherited email and
      password checks and their error list. */
  class Controller {
    const validators: UserValidators

    constructor (u: Utils)
      ensures fresh(validators) && validators.utils == u && validators.errors == []
    {
      validators := new UserValidators(u);
    }

    /** login: the password is validated only once the email passed. A session is
        appended, without a duplicate check, only for a found account whose password
        matches; a failed check leaves the sessions list unchanged. */
    method Login(email: string, password: string, loginList: SessionList, users: seq<User>) returns (r: LoginReply)
      modifies validators, loginList
      ensures var u := validators.utils;
              var emailOk := EmailOutcome(u, email).passed;
              var passwordOk := emailOk && PasswordOutcome(u, password).passed;
              var found := FindUserAsWritten(email, users);
              && (!emailOk ==> validators.errors == old(validators.errors) + EmailOutcome(u, email).appended)
              && (emailOk && !passwordOk ==>
                    validators.errors == old(validators.errors) + PasswordOutcome(u, password).appended)
              && (!passwordOk ==> r == Invalid(validators.errors) && loginList.entries == old(loginList.entries))
              && (passwordOk && found.None? ==>
                    r == Refused(UserNotFound) && loginList.entries == old(loginList.entries)
                    && validators.errors == old(validators.errors))
              && (passwordOk && found.Some? && found.value.password != password ==>
                    r == Refused(BadCombination) && loginList.entries == old(loginList.entries)
                    && validators.errors == old(validators.errors) + [PasswordsDiffer])
              && (passwordOk && found.Some? && found.value.password == password ==>
                    loginList.entries == old(loginList.entries) + [Session(email, found.value.id)]
                    && r == LoggedIn(loginList.entries) && validators.errors == old(validators.errors))
    {
      var emailOk := validators.ValidateEmail(email);
      var passwordOk := false;
      if emailOk {
        passwordOk := validators.ValidatePassword(password);
      }
      if passwordOk {
        var user := FindUser(email, users);
        if user.Some? {
          var matches := validators.MatchPassword(password, user.value.password);
          if matches {
            loginList.entries := loginList.entries + [Session(email, user.value.id)];
            return LoggedIn(loginList.entries);
          }
          return Refused(BadCombination);
        }
        return Refused(UserNotFound);
      }
      return Invalid(validators.errors);
    }

    /** logout, as written: only the first session is compared with the user id
        (as decimal text), and it is removed when it matches. */
    static method Logout(userId: string, loggedIn: SessionList) returns (r: LogoutReply)
      modifies loggedIn
      ensures var sessions := old(loggedIn.entries);
              && (r.status <==> sessions != [] && HasId(sessions[0], userId))
              && (r.status ==> r.message == LoggedOut && loggedIn.entries == sessions[1..])
              && (!r.status ==> r.message == NotLoggedIn && loggedIn.entries == sessions)
    {
      r := LogoutReply(false, NotLoggedIn);
      if loggedIn.entries != [] {
        var user := loggedIn.entries[0];
        // The loops over the sessions and over the first session's keys end on
        // their first pass: the test does not depend on the key, and a failed test
        // falls through to the return after the inner loop.
        if HasId(user, userId) {
          // list.remove(user) drops the first entry equal to user: entry 0
          loggedIn.entries := loggedIn.entries[1..];
          r := LogoutReply(true, LoggedOut);
        }
      }
    }

    /** The intended logout: the first session with the user id, wherever it is, is
        removed. */
    static method LogoutIntended(userId: string, loggedIn: SessionList) returns (r: LogoutReply)
      modifies loggedIn
      ensures var sessions := old(loggedIn.entries);
              r.status <==> exists i :: 0 <= i < |sessions| && HasId(sessions[i], userId)
      ensures var sessions := old(loggedIn.entries);
              r.status ==> r.message == LoggedOut && exists i :: FirstWithId(sessions, userId, i) && loggedIn.entries == sessions[..i] + sessions[i + 1..]
      ensures !r.status ==> r.message == NotLoggedIn && loggedIn.entries == old(loggedIn.entries)
    {
      var i := 0;
      while i < |loggedIn.entries|
        invariant 0 <= i <= |loggedIn.entries| && loggedIn.entries == old(loggedIn.entries)
        invariant forall j :: 0 <= j < i ==> !HasId(loggedIn.entries[j], userId)
      {
        if HasId(loggedIn.entries[i], userId) {
          assert FirstWithId(loggedIn.entries, userId, i);
          loggedIn.entries := loggedIn.entries[..i] + loggedIn.entries[i + 1..];
          return LogoutReply(true, LoggedOut);
        }
        i := i + 1;
      }
      return LogoutReply(false, NotLoggedIn);
    }
  }

  /** str(session['Id']) == str(user_id) */
  predicate HasId(session: Session, userId: string) {
    IntToString(session.id) == userId
  }

  /** Session i is the first one with the user id. */
  ghost predicate FirstWithId(sessions: seq<Session>, userId: string, i: int) {
    0 <= i < |sessions| && HasId(sessions[i], userId) && forall j :: 0 <= j < i ==> !HasId(sessions[j], userId)
  }

  /** With two sessions, logging out the second one fails as written, while the
      intended logout removes it. */
  method LogoutMissesSecondSession() returns (asWritten: LogoutReply, intended: LogoutReply)
    ensures !asWritten.status && asWritten.message == NotLoggedIn
    ensures intended.status && intended.message == LoggedOut
  {
    assert IntToString(1) == "1" && IntToString(2) == "2";
    var sessions := [Session("first@example.com", 1), Session("second@example.com", 2)];
    var list := new SessionList();
    list.entries := sessions;
    asWritten := Controller.Logout("2", list);
    list.entries := sessions;
    assert HasId(list.entries[1], "2");
    intended := Controller.LogoutIntended("2", list);
  }
}
