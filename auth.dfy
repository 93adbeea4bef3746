/**
 * context/AuthContext.tsx: the itinerary app's accounts. `users` is the
 * persisted user table (keyed by user id), `session` the persisted session
 * slot, and `user` / `isLoading` the provider's React state. E-mails are
 * compared after lower-casing (ASCII letters); passwords exactly. A write
 * to storage that throws is modelled by a `false` flag parameter; the id
 * `signup` draws from the clock and a random number is a parameter.
 */
module AuthContext {
  import opened Wrappers
  import opened Text

  datatype User = User(id: string, email: string, name: string, password: string)

  /** What `login` and `signup` resolve to. */
  datatype AuthResult = AuthResult(success: bool, error: Option<string>)

  const InvalidCredentials := "Invalid email or password"
  const EmailAlreadyRegistered := "Email already registered"
  const SomethingWentWrong := "Something went wrong"

  /** `a.toLowerCase() === b.toLowerCase()`: equal length and equal letters ignoring case. */
  function EmailsMatch(a: string, b: string): (r: bool)
    ensures a == b ==> r
    ensures r <==> |a| == |b| && forall k :: 0 <= k < |a| ==> ToLowerChar(a[k]) == ToLowerChar(b[k])
  {
    ToLower(a) == ToLower(b)
  }

  /** The `login` test: the e-mail ignoring case and the password exactly. */
  predicate Credentials(u: User, email: string, password: string)
  {
    EmailsMatch(u.email, email) && u.password == password
  }

  /** `Object.values(users).some((u) => ...)`: some stored user has this e-mail, ignoring case. */
  function EmailTaken(users: map<string, User>, email: string): (r: bool)
    ensures r <==> exists u :: u in users.Values && EmailsMatch(u.email, email)
    ensures users == map[] ==> !r
  {
    exists id :: id in users && EmailsMatch(users[id].email, email)
  }

  /** No two stored users share an e-mail, ignoring case. */
  ghost predicate EmailsDistinct(users: map<string, User>)
  {
    forall a, b :: a in users && b in users && a != b ==> !EmailsMatch(users[a].email, users[b].email)
  }

  /** Every stored user sits under its own id. */
  ghost predicate KeysAreIds(users: map<string, User>)
  {
    forall id :: id in users ==> users[id].id == id
  }

  /** Matching ignoring case is an equivalence. */
  lemma EmailsMatchEquivalence(a: string, b: string, c: string)
    ensures EmailsMatch(a, a)
    ensures EmailsMatch(a, b) ==> EmailsMatch(b, a)
    ensures EmailsMatch(a, b) && EmailsMatch(b, c) ==> EmailsMatch(a, c)
  {
  }

  /** Adding a user whose e-mail is not taken, under any id, keeps e-mails distinct. */
  lemma {:induction false} AddUntakenKeepsDistinct(users: map<string, User>, id: string, u: User)
    requires EmailsDistinct(users)
    requires !EmailTaken(users, u.email)
    ensures EmailsDistinct(users[id := u])
  {
    var next := users[id := u];
    forall a, b | a in next && b in next && a != b
      ensures !EmailsMatch(next[a].email, next[b].email)
    {
      if a == id {
        assert b in users && next[b] == users[b];
        assert !EmailsMatch(users[b].email, u.email);
      } else if b == id {
        assert a in users && next[a] == users[a];
        assert !EmailsMatch(users[a].email, u.email);
      } else {
        assert next[a] == users[a] && next[b] == users[b];
      }
    }
  }

  /** With distinct e-mails, at most one stored user passes the `login` test. */
  lemma LoginMatchUnique(users: map<string, User>, email: string, password: string, a: string, b: string)
    requires EmailsDistinct(users)
    requires a in users && Credentials(users[a], email, password)
    requires b in users && Credentials(users[b], email, password)
    ensures a == b
  {
  }

  class AuthProvider {
    /** The persisted user table. */
    var users: map<string, User>
    /** The persisted session slot: the signed-in user's id, or `None`. */
    var session: Option<string>
    var user: Option<User>
    var isLoading: bool

    /** The table keys each user by its id and holds no e-mail twice. */
    ghost predicate Valid()
      reads this
    {
      KeysAreIds(users) && EmailsDistinct(users)
    }

    /** The provider as first rendered: no user, still loading. */
    constructor (storedUsers: map<string, User>, storedSession: Option<string>)
      ensures users == storedUsers && session == storedSession
      ensures user == None && isLoading
    {
      users := storedUsers;
      session := storedSession;
      user := None;
      isLoading := true;
    }

    /**
     * `loadSession`: a non-empty session id that is a key of the table
     * selects that user; nothing else changes `user`, and loading ends
     * whether or not reading the session succeeded.
     */
    method LoadSession(readOk: bool)
      modifies this
      ensures readOk && session.Some? && session.value != "" && session.value in users ==>
        user == Some(users[session.value])
      ensures !(readOk && session.Some? && session.value != "" && session.value in users) ==>
        user == old(user)
      ensures !isLoading
      ensures users == old(users) && session == old(session)
    {
      if readOk && session.Some? {
        var userId := session.value;
        if userId != "" && userId in users {
          user := Some(users[userId]);
        }
      }
      isLoading := false;
    }

    /**
     * `login`: succeeds exactly when some stored user has the e-mail
     * (ignoring case) and the password; that user's id goes to the session
     * and the user becomes current. A failed login changes nothing.
     */
    method Login(email: string, password: string, sessionOk: bool) returns (result: AuthResult)
      modifies this
      ensures result.success <==> sessionOk && exists id :: id in users && Credentials(users[id], email, password)
      ensures result.success ==>
        && user.Some? && Credentials(user.value, email, password)
        && user.value in users.Values && session == Some(user.value.id)
      ensures !(exists id :: id in users && Credentials(users[id], email, password)) ==>
        result == AuthResult(false, Some(InvalidCredentials))
      ensures (exists id :: id in users && Credentials(users[id], email, password)) && !sessionOk ==>
        result == AuthResult(false, Some(SomethingWentWrong))
      ensures !result.success ==> user == old(user) && session == old(session)
      ensures users == old(users) && isLoading == old(isLoading)
    {
      if exists id :: id in users && Credentials(users[id], email, password) {
        var id :| id in users && Credentials(users[id], email, password);
        var found := users[id];
        if !sessionOk {
          return AuthResult(false, Some(SomethingWentWrong));
        }
        session := Some(found.id);
        user := Some(found);
        assert id in users && Credentials(users[id], email, password);
        return AuthResult(true, None);
      }
      return AuthResult(false, Some(InvalidCredentials));
    }

    /**
     * `signup`: a taken e-mail (ignoring case) is refused and nothing
     * changes; otherwise one user is stored under the fresh id, which then
     * becomes the session and the current user.
     */
    method Signup(email: string, password: string, name: string, freshId: string, saveOk: bool, sessionOk: bool)
      returns (result: AuthResult)
      modifies this
      ensures EmailTaken(old(users), email) ==>
        result == AuthResult(false, Some(EmailAlreadyRegistered)) && users == old(users)
      ensures !EmailTaken(old(users), email) && saveOk ==>
        users == old(users)[freshId := User(freshId, email, name, password)]
      ensures !EmailTaken(old(users), email) && !saveOk ==> users == old(users)
      ensures result.success <==> !EmailTaken(old(users), email) && saveOk && sessionOk
      ensures result.success ==>
        session == Some(freshId) && user == Some(User(freshId, email, name, password)) && result.error == None
      ensures !EmailTaken(old(users), email) && !(saveOk && sessionOk) ==>
        result == AuthResult(false, Some(SomethingWentWrong))
      ensures !result.success ==> session == old(session) && user == old(user)
      ensures isLoading == old(isLoading)
      ensures old(Valid()) ==> Valid()
    {
      if EmailTaken(users, email) {
        return AuthResult(false, Some(EmailAlreadyRegistered));
      }
      var newUser := User(freshId, email, name, password);
      if !saveOk {
        return AuthResult(false, Some(SomethingWentWrong));
      }
      if EmailsDistinct(users) {
        AddUntakenKeepsDistinct(users, freshId, newUser);
      }
      users := users[freshId := newUser];
      if !sessionOk {
        return AuthResult(false, Some(SomethingWentWrong));
      }
      session := Some(freshId);
      user := Some(newUser);
      return AuthResult(true, None);
    }

    /**
     * `logout`: the session is cleared and there is no current user. Nothing
     * catches a failing `clearSession`, so then the returned promise rejects
     * (`rejected`) before `user` is reset.
     */
    method Logout(clearOk: bool) returns (rejected: bool)
      modifies this
      ensures rejected <==> !clearOk
      ensures clearOk ==> session == None && user == None
      ensures !clearOk ==> session == old(session) && user == old(user)
      ensures users == old(users) && isLoading == old(isLoading)
    {
      if !clearOk {
        return true;
      }
      session := None;
      user := None;
      return false;
    }
  }
}
