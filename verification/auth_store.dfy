/** The server's authentication over an abstract store: users and sessions as
    sequences in insertion order (a query's first match is the first element
    that matches), the clock as an integer number of seconds, the upstream
    session-data service's answer and the new user's identifier as inputs.

    Covers resolving the caller (`get_current_user`), `/auth/me`,
    `/auth/validate-session` (as written, and as evidently intended) and
    `/auth/logout`. The address validation and normalization of an
    `EmailStr` field is a parameter, `normalize`: none for an address it
    rejects, otherwise the address it stores. */
module AuthStore {
  import opened Wrappers
  import opened Sequences

  /** Seven days, the lifetime of a session and of its cookie. */
  const SessionLifetime: int := 7 * 24 * 60 * 60

  const DefaultRole: string := "Collaborator"
  const CookieName: string := "session_token"

  datatype User = User(
    id: string,
    email: string,
    name: string,
    picture: Option<string>,
    role: string,
    lastLogin: Option<int>)

  datatype Session = Session(userId: string, token: string, expiresAt: int)

  datatype Store = Store(users: seq<User>, sessions: seq<Session>)

  /** An error response: the status and its `detail`. */
  datatype HttpError = HttpError(status: nat, detail: string)

  /** The body of `/auth/me` and of a successful validation. */
  datatype AuthResponse = AuthResponse(success: bool, user: Option<User>, message: string)

  /** The token a request presents: the cookie when it is non-empty, else the
      bearer credentials when non-empty, else none. */
  function RequestToken(cookie: Option<string>, bearer: Option<string>): (token: Option<string>)
    ensures token.Some? ==> token.value != "" && (token == cookie || token == bearer)
    ensures cookie.Some? && cookie.value != "" ==> token == cookie
    ensures cookie.None? || cookie.value == "" ==>
      (token.Some? <==> bearer.Some? && bearer.value != "")
  {
    if cookie.Some? && cookie.value != "" then cookie
    else if bearer.Some? && bearer.value != "" then bearer
    else None
  }

  /** A session is accepted strictly before its expiry. */
  predicate Live(s: Session, token: string, now: int) {
    s.token == token && now < s.expiresAt
  }

  /** The first live session for `token`, as an index (`|sessions|` when none). */
  function FindSession(sessions: seq<Session>, token: string, now: int): nat {
    FirstIndex(sessions, (s: Session) => Live(s, token, now))
  }

  /** The first user with identifier `id`, as an index (`|users|` when none). */
  function FindUser(users: seq<User>, id: string): nat {
    FirstIndex(users, (u: User) => u.id == id)
  }

  /** The first user with e-mail address `email`, as an index. */
  function FindEmail(users: seq<User>, email: string): nat {
    FirstIndex(users, (u: User) => u.email == email)
  }

  /** `get_current_user`: the user of the first live session for the request's
      token. No token, no live session, a session whose user is gone and a
      failing database (`fault`) all give none. */
  function CurrentUser(store: Store, cookie: Option<string>, bearer: Option<string>, now: int, fault: bool)
    : (r: Option<User>)
    ensures r.Some? ==> !fault && RequestToken(cookie, bearer).Some? && r.value in store.users
    ensures r.Some? ==> exists s :: (s in store.sessions
      && Live(s, RequestToken(cookie, bearer).value, now) && s.userId == r.value.id)
    ensures RequestToken(cookie, bearer).Some? && !fault ==>
      var i := FindSession(store.sessions, RequestToken(cookie, bearer).value, now);
      (r.Some? <==> i < |store.sessions| && FindUser(store.users, store.sessions[i].userId) < |store.users|)
    ensures r.Some? ==>
      var i := FindSession(store.sessions, RequestToken(cookie, bearer).value, now);
      i < |store.sessions| && r.value == store.users[FindUser(store.users, store.sessions[i].userId)]
  {
    match RequestToken(cookie, bearer)
    case None => None
    case Some(token) =>
      if fault then None
      else
        var i := FindSession(store.sessions, token, now);
        if i == |store.sessions| then None
        else
          var j := FindUser(store.users, store.sessions[i].userId);
          if j == |store.users| then None else Some(store.users[j])
  }

  /** `/auth/me`: never an error; `success` exactly when there is a user. */
  function Me(store: Store, cookie: Option<string>, bearer: Option<string>, now: int, fault: bool)
    : (r: AuthResponse)
    ensures r.success <==> r.user.Some?
    ensures r.user == CurrentUser(store, cookie, bearer, now, fault)
    ensures r.message == if r.success then "Authenticated" else "Not authenticated"
  {
    match CurrentUser(store, cookie, bearer, now, fault)
    case None => AuthResponse(false, None, "Not authenticated")
    case Some(u) => AuthResponse(true, Some(u), "Authenticated")
  }

  /** The JSON object the upstream session-data service answers with: each
      field the handler reads, `None` when it is absent (or not a string). */
  datatype SessionData = SessionData(
    email: Option<string>,
    name: Option<string>,
    picture: Option<string>,
    sessionToken: Option<string>)

  /** The upstream call: a transport failure, or an answer whose body is a
      JSON object (`Some`) or not (`None`). */
  datatype Upstream = Unreachable | Replied(status: int, body: Option<SessionData>)

  datatype Cookie = Cookie(
    name: string,
    value: string,
    expiresAt: int,
    httpOnly: bool,
    secure: bool,
    sameSite: string,
    path: string)

  /** A successful validation's answer: the body and the cookie set. */
  datatype Login = Login(response: AuthResponse, cookie: Cookie)

  /** What a validation request leaves behind: the store, written to even
      when the request fails part-way, and the answer. */
  datatype Validation = Validation(store: Store, reply: Result<Login, HttpError>)

  const Failed: HttpError := HttpError(500, "Authentication failed")

  /** The user that logs in with `data`, before the store is updated: the
      first whose stored address equals the upstream one as sent, or else a
      new Collaborator holding the normalized address. None when the body
      lacks the e-mail address, or when a new user lacks the name or has an
      address that validation rejects. */
  function LoginUser(users: seq<User>, data: SessionData, freshId: string, normalize: string -> Option<string>)
    : (r: Option<User>)
    ensures r.None? <==>
      data.email.None? ||
      (FindEmail(users, data.email.value) == |users| && (data.name.None? || normalize(data.email.value).None?))
    ensures r.Some? && FindEmail(users, data.email.value) < |users| ==>
      r.value == users[FindEmail(users, data.email.value)] && r.value.email == data.email.value
    ensures r.Some? && FindEmail(users, data.email.value) == |users| ==>
      r.value == User(freshId, normalize(data.email.value).value, data.name.value, data.picture, DefaultRole, None)
  {
    match data.email
    case None => None
    case Some(email) =>
      var i := FindEmail(users, email);
      if i < |users| then Some(users[i])
      else if data.name.None? then None
      else match normalize(email)
        case None => None
        case Some(address) => Some(User(freshId, address, data.name.value, data.picture, DefaultRole, None))
  }

  /** The users after the upsert: a returning user's record (the first with
      its identifier) gets the login time, a new one is appended, and a body
      the upsert cannot read leaves the users as they were. */
  function RecordLogin(users: seq<User>, data: SessionData, now: int, freshId: string, normalize: string -> Option<string>)
    : (us: seq<User>)
    ensures LoginUser(users, data, freshId, normalize).None? ==> us == users
    ensures data.email.Some? && FindEmail(users, data.email.value) < |users| ==>
      var u := users[FindEmail(users, data.email.value)];
      |us| == |users|
      && forall k :: 0 <= k < |us| ==>
        us[k] == users[k] || (users[k].id == u.id && us[k] == users[k].(lastLogin := Some(now)))
    ensures (data.email.Some? && FindEmail(users, data.email.value) == |users|
      && data.name.Some? && normalize(data.email.value).Some?) ==>
      us == users + [LoginUser(users, data, freshId, normalize).value]
  {
    match LoginUser(users, data, freshId, normalize)
    case None => users
    case Some(u) =>
      if FindEmail(users, data.email.value) < |users| then
        var j := FindUser(users, u.id);
        assert users[FindEmail(users, data.email.value)].id == u.id;
        users[j := users[j].(lastLogin := Some(now))]
      else users + [u]
  }

  /** The handler from a readable 200 answer on, as evidently intended: the
      upsert, then the new session and its cookie. A body without a session
      token fails with 500 after the upsert has been written. As written, the
      success answer itself cannot be encoded (see `ValidateSession`). */
  function Admit(store: Store, data: SessionData, now: int, freshId: string, normalize: string -> Option<string>)
    : (v: Validation)
    ensures v.store.users == RecordLogin(store.users, data, now, freshId, normalize)
    ensures v.reply.Ok? <==> LoginUser(store.users, data, freshId, normalize).Some? && data.sessionToken.Some?
    ensures v.reply.Err? ==> v.reply.error == Failed && v.store.sessions == store.sessions
    ensures v.reply.Ok? ==>
      var u := LoginUser(store.users, data, freshId, normalize).value;
      var expiresAt := now + SessionLifetime;
      v.store.sessions == store.sessions + [Session(u.id, data.sessionToken.value, expiresAt)]
      && v.reply.value.response == AuthResponse(true, Some(u), "Authentication successful")
      && v.reply.value.cookie == Cookie(CookieName, data.sessionToken.value, expiresAt, true, true, "none", "/")
  {
    match LoginUser(store.users, data, freshId, normalize)
    case None => Validation(store, Err(Failed))
    case Some(u) =>
      var users := RecordLogin(store.users, data, now, freshId, normalize);
      match data.sessionToken
      case None => Validation(store.(users := users), Err(Failed))
      case Some(token) =>
        var expiresAt := now + SessionLifetime;
        Validation(
          Store(users, store.sessions + [Session(u.id, token, expiresAt)]),
          Ok(Login(
            AuthResponse(true, Some(u), "Authentication successful"),
            Cookie(CookieName, token, expiresAt, true, true, "none", "/"))))
  }

  /** `/auth/validate-session` as the code is written. The 401 raised for a
      rejected session id is inside the `try` whose generic handler turns it
      into a 500. And the success answer carries the user's `created_at`
      timestamp, which the JSON encoder refuses, so the same handler answers
      500 after the user and the session have been written and before the
      cookie is set: no validation succeeds. */
  function ValidateSession(
    store: Store, header: Option<string>, upstream: Upstream, now: int, freshId: string,
    normalize: string -> Option<string>)
    : (v: Validation)
    ensures v.reply.Err?
    ensures header.None? || header.value == "" ==>
      v == Validation(store, Err(HttpError(400, "Session ID required")))
    ensures header.Some? && header.value != "" && upstream.Unreachable? ==>
      v == Validation(store, Err(HttpError(500, "Authentication service unavailable")))
    ensures header.Some? && header.value != "" && upstream.Replied? && (upstream.status != 200 || upstream.body.None?) ==>
      v == Validation(store, Err(Failed))
    ensures header.Some? && header.value != "" && upstream.Replied? && upstream.status == 200 && upstream.body.Some? ==>
      v == Validation(Admit(store, upstream.body.value, now, freshId, normalize).store, Err(Failed))
  {
    if header.None? || header.value == "" then Validation(store, Err(HttpError(400, "Session ID required")))
    else match upstream
      case Unreachable => Validation(store, Err(HttpError(500, "Authentication service unavailable")))
      case Replied(status, body) =>
        if status != 200 then Validation(store, Err(Failed))
        else if body.None? then Validation(store, Err(Failed))
        else Validation(Admit(store, body.value, now, freshId, normalize).store, Err(Failed))
  }

  /** Validation as evidently intended: a rejected session id reported as the
      401 the code raises for it, and an accepted one answered with the user
      and the session cookie. It writes exactly what the code as written
      writes; only the answers differ. */
  function ValidateSessionIntended(
    store: Store, header: Option<string>, upstream: Upstream, now: int, freshId: string,
    normalize: string -> Option<string>)
    : (v: Validation)
    ensures header.None? || header.value == "" ==>
      v == Validation(store, Err(HttpError(400, "Session ID required")))
    ensures header.Some? && header.value != "" && upstream.Unreachable? ==>
      v == Validation(store, Err(HttpError(500, "Authentication service unavailable")))
    ensures upstream.Replied? && upstream.status != 200 && header.Some? && header.value != "" ==>
      v == Validation(store, Err(HttpError(401, "Invalid session")))
    ensures header.Some? && header.value != "" && upstream.Replied? && upstream.status == 200 && upstream.body.None? ==>
      v == Validation(store, Err(Failed))
    ensures header.Some? && header.value != "" && upstream.Replied? && upstream.status == 200 && upstream.body.Some? ==>
      v == Admit(store, upstream.body.value, now, freshId, normalize)
    ensures v.reply.Ok? <==> (header.Some? && header.value != "" && upstream.Replied? && upstream.status == 200
      && upstream.body.Some? && LoginUser(store.users, upstream.body.value, freshId, normalize).Some?
      && upstream.body.value.sessionToken.Some?)
    ensures v.store == ValidateSession(store, header, upstream, now, freshId, normalize).store
  {
    if header.None? || header.value == "" then Validation(store, Err(HttpError(400, "Session ID required")))
    else match upstream
      case Unreachable => Validation(store, Err(HttpError(500, "Authentication service unavailable")))
      case Replied(status, body) =>
        if status != 200 then Validation(store, Err(HttpError(401, "Invalid session")))
        else if body.None? then Validation(store, Err(Failed))
        else Admit(store, body.value, now, freshId, normalize)
  }

  /** A session id the upstream service rejects yields 500 as written, where
      the code's own check means 401; the store is untouched either way. */
  lemma RejectedSessionIs500(
    store: Store, id: string, status: int, body: Option<SessionData>, now: int, freshId: string,
    normalize: string -> Option<string>)
    requires id != "" && status != 200
    ensures ValidateSession(store, Some(id), Replied(status, body), now, freshId, normalize)
      == Validation(store, Err(Failed))
    ensures ValidateSessionIntended(store, Some(id), Replied(status, body), now, freshId, normalize)
      == Validation(store, Err(HttpError(401, "Invalid session")))
  {
  }

  /** An accepted session id with a complete answer yields 500 as written,
      after the user and the new session have been stored; as intended, the
      same writes come with the user and the cookie. */
  lemma AcceptedSessionIs500(
    store: Store, id: string, data: SessionData, now: int, freshId: string, normalize: string -> Option<string>)
    requires id != ""
    requires LoginUser(store.users, data, freshId, normalize).Some? && data.sessionToken.Some?
    ensures var u := LoginUser(store.users, data, freshId, normalize).value;
      var written := ValidateSession(store, Some(id), Replied(200, Some(data)), now, freshId, normalize);
      var intended := ValidateSessionIntended(store, Some(id), Replied(200, Some(data)), now, freshId, normalize);
      written.reply == Err(Failed)
      && written.store.sessions == store.sessions + [Session(u.id, data.sessionToken.value, now + SessionLifetime)]
      && intended.store == written.store
      && intended.reply.Ok? && intended.reply.value.response.user == Some(u)
      && intended.reply.value.cookie.value == data.sessionToken.value
  {
  }

  /** An answer without a session token still writes the upsert before the
      500: a first-time user is created, and stays, without any session. */
  lemma TokenlessAnswerKeepsNewUser(
    store: Store, id: string, data: SessionData, now: int, freshId: string, normalize: string -> Option<string>)
    requires id != ""
    requires data.email.Some? && data.name.Some? && data.sessionToken.None?
    requires FindEmail(store.users, data.email.value) == |store.users| && normalize(data.email.value).Some?
    ensures var v := ValidateSession(store, Some(id), Replied(200, Some(data)), now, freshId, normalize);
      v.reply == Err(Failed)
      && v.store.users == store.users
        + [User(freshId, normalize(data.email.value).value, data.name.value, data.picture, DefaultRole, None)]
      && v.store.sessions == store.sessions
  {
  }

  /** A first-time address that validation rewrites (a `Name <address>` form,
      an upper-case domain) is stored rewritten, while the lookup uses the
      address as sent: the next login with the same answer finds no user and
      creates a second one. */
  lemma RewrittenAddressAddsUserTwice(
    users: seq<User>, data: SessionData, now: int, later: int, freshId: string, nextId: string,
    normalize: string -> Option<string>)
    requires data.email.Some? && data.name.Some?
    requires FindEmail(users, data.email.value) == |users|
    requires normalize(data.email.value).Some? && normalize(data.email.value).value != data.email.value
    ensures var once := RecordLogin(users, data, now, freshId, normalize);
      var twice := RecordLogin(once, data, later, nextId, normalize);
      |once| == |users| + 1 && |twice| == |users| + 2
      && twice[|users|].email == twice[|users| + 1].email == normalize(data.email.value).value
  {
  }

  /** The first session holding `token`, live or not, as an index. */
  function FindToken(sessions: seq<Session>, token: string): nat {
    FirstIndex(sessions, (s: Session) => s.token == token)
  }

  /** Deletes the first session holding `token`, live or not. */
  function RemoveSession(sessions: seq<Session>, token: string): (rs: seq<Session>)
    ensures FindToken(sessions, token) == |sessions| ==> rs == sessions
    ensures var i := FindToken(sessions, token);
      i < |sessions| ==> rs == sessions[..i] + sessions[i + 1..]
  {
    if |sessions| == 0 then []
    else if sessions[0].token == token then sessions[1..]
    else
      var rest := RemoveSession(sessions[1..], token);
      var i := FindToken(sessions[1..], token);
      assert i < |sessions| - 1 ==>
        sessions[..i + 1] == [sessions[0]] + sessions[1..][..i] && sessions[i + 2..] == sessions[1..][i + 1..];
      [sessions[0]] + rest
  }

  datatype Logout = Logout(store: Store, success: bool, clearsCookie: bool)

  /** `/auth/logout`: deletes the cookie's session when there is a non-empty
      cookie, and always reports success and clears the cookie. */
  function LogoutRequest(store: Store, cookie: Option<string>): (r: Logout)
    ensures r.success && r.clearsCookie && r.store.users == store.users
    ensures cookie.None? || cookie.value == "" ==> r.store == store
    ensures cookie.Some? && cookie.value != "" ==> r.store.sessions == RemoveSession(store.sessions, cookie.value)
  {
    if cookie.Some? && cookie.value != "" then
      Logout(store.(sessions := RemoveSession(store.sessions, cookie.value)), true, true)
    else Logout(store, true, true)
  }

  /** Identifiers are unique among users. */
  predicate UniqueIds(users: seq<User>) {
    forall i, j :: 0 <= i < j < |users| ==> users[i].id != users[j].id
  }

  /** No session holds `token`. */
  predicate FreshToken(sessions: seq<Session>, token: string) {
    forall i :: 0 <= i < |sessions| ==> sessions[i].token != token
  }

  /** A returning user's own record gets the login time and nothing else
      changes, when identifiers are unique. */
  lemma ReturningUser(users: seq<User>, data: SessionData, now: int, freshId: string, normalize: string -> Option<string>)
    requires UniqueIds(users)
    requires data.email.Some? && FindEmail(users, data.email.value) < |users|
    ensures var i := FindEmail(users, data.email.value);
      RecordLogin(users, data, now, freshId, normalize) == users[i := users[i].(lastLogin := Some(now))]
  {
  }

  /** Logging in keeps identifiers unique when the new identifier is unused. */
  lemma RecordLoginUniqueIds(users: seq<User>, data: SessionData, now: int, freshId: string, normalize: string -> Option<string>)
    requires UniqueIds(users)
    requires forall u :: u in users ==> u.id != freshId
    ensures UniqueIds(RecordLogin(users, data, now, freshId, normalize))
  {
  }

  /** A body the handler accepts: its upsert can be read and it carries a
      non-empty session token that no session holds yet. */
  predicate FreshLogin(store: Store, data: SessionData, freshId: string, normalize: string -> Option<string>) {
    LoginUser(store.users, data, freshId, normalize).Some?
    && data.sessionToken.Some? && data.sessionToken.value != ""
    && FreshToken(store.sessions, data.sessionToken.value)
  }

  /** The user a login stores: the one `CurrentUser` finds for its token. */
  function StoredUser(store: Store, data: SessionData, now: int, freshId: string, normalize: string -> Option<string>)
    : User
    requires LoginUser(store.users, data, freshId, normalize).Some?
  {
    var u := LoginUser(store.users, data, freshId, normalize).value;
    if FindEmail(store.users, data.email.value) < |store.users| then u.(lastLogin := Some(now)) else u
  }

  /** After a login with a fresh token, the token authenticates the logged-in
      user, with the stored login time, until the session expires, and not from
      then on. The store is the one the code as written leaves behind too
      (`AcceptedSessionIs500`); only the cookie that would carry the token is
      missing there. */
  lemma {:induction false} LoginThenMe(
    store: Store, data: SessionData, now: int, freshId: string, normalize: string -> Option<string>, later: int)
    requires UniqueIds(store.users)
    requires forall u :: u in store.users ==> u.id != freshId
    requires FreshLogin(store, data, freshId, normalize)
    requires now <= later
    ensures var after := Admit(store, data, now, freshId, normalize).store;
      CurrentUser(after, data.sessionToken, None, later, false)
        == if later < now + SessionLifetime then Some(StoredUser(store, data, now, freshId, normalize)) else None
  {
    var login := Admit(store, data, now, freshId, normalize);
    var after := login.store;
    var token := data.sessionToken.value;
    var u := LoginUser(store.users, data, freshId, normalize).value;
    var n := |store.sessions|;
    assert after.sessions[n] == Session(u.id, token, now + SessionLifetime);
    assert forall k :: 0 <= k < n ==> !Live(after.sessions[k], token, later) by {
      assert forall k :: 0 <= k < n ==> after.sessions[k] == store.sessions[k];
    }
    var i := FindSession(after.sessions, token, later);
    if later < now + SessionLifetime {
      assert i == n;
      var j := FindUser(after.users, u.id);
      var us := after.users;
      if FindEmail(store.users, data.email.value) < |store.users| {
        ReturningUser(store.users, data, now, freshId, normalize);
        var e := FindEmail(store.users, data.email.value);
        assert us[e].id == u.id;
        assert j == e by {
          assert forall k :: 0 <= k < |us| && k != e ==> us[k].id != u.id;
        }
      } else {
        assert us == store.users + [u];
        assert forall k :: 0 <= k < |store.users| ==> us[k] == store.users[k] && store.users[k] in store.users;
        assert u.id == freshId;
        assert us[|store.users|].id == u.id;
        assert j == |store.users|;
      }
    } else {
      assert i == |after.sessions|;
    }
  }

  /** With validation as intended, logging out with the cookie of a fresh
      login removes exactly the session the login added. */
  lemma LoginThenLogout(store: Store, data: SessionData, now: int, freshId: string, normalize: string -> Option<string>)
    requires FreshLogin(store, data, freshId, normalize)
    ensures var after := Admit(store, data, now, freshId, normalize);
      after.reply.Ok?
      && LogoutRequest(after.store, Some(after.reply.value.cookie.value)).store.sessions == store.sessions
  {
    var u := LoginUser(store.users, data, freshId, normalize).value;
    RemoveAppended(store.sessions, Session(u.id, data.sessionToken.value, now + SessionLifetime));
  }

  lemma {:induction false} RemoveAppended(sessions: seq<Session>, s: Session)
    requires FreshToken(sessions, s.token)
    ensures RemoveSession(sessions + [s], s.token) == sessions
    decreases |sessions|
  {
    if |sessions| > 0 {
      assert (sessions + [s])[1..] == sessions[1..] + [s];
      RemoveAppended(sessions[1..], s);
    }
  }
}
