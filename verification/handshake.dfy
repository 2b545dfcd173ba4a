/** The client and the server together: the server's answers as the profile
    page receives them, and the end-to-end outcomes of signing in, of a
    rejected sign-in, and of signing out. */
module Handshake {
  import opened Wrappers
  import opened FormUrlencoded
  import opened ProfilePage
  import AuthStore

  /** The fields of a server user the page reads. */
  function ClientView(u: AuthStore.User): ClientUser {
    ClientUser(u.name, Some(u.role))
  }

  function ViewOf(u: Option<AuthStore.User>): (c: Option<ClientUser>)
    ensures c.Some? <==> u.Some?
  {
    match u
    case Some(x) => Some(ClientView(x))
    case None => None
  }

  /** The validation endpoint's result as the page receives it: an error
      status makes the HTTP client throw. */
  function ValidationReply(v: AuthStore.Validation): (reply: Reply)
    ensures reply.Threw? <==> v.reply.Err?
    ensures reply.Answered? ==> reply.success == v.reply.value.response.success
  {
    match v.reply
    case Ok(login) => Answered(login.response.success, ViewOf(login.response.user))
    case Err(_) => Threw
  }

  /** `/auth/me` always answers 200. */
  function MeReply(r: AuthStore.AuthResponse): (reply: Reply)
    ensures reply.Answered? && reply.success == r.success
  {
    Answered(r.success, ViewOf(r.user))
  }

  /** The location the portal sends the browser back to. */
  function ReturnLocation(pathname: string, id: string): Location {
    Location(pathname, "", "#session_id=" + id)
  }

  /** The page reads the portal's session id back from the fragment. */
  lemma ReturnLocationSessionId(pathname: string, id: string, decode: string -> string)
    requires '&' !in id
    requires decode("session_id") == "session_id" && decode(id) == id
    ensures SessionId(ReturnLocation(pathname, id), decode) == Some(id)
  {
    var fragment := Fragment(ReturnLocation(pathname, id).hash);
    assert fragment == "session_id" + "=" + id;
    assert fragment[0] != '?';
    SinglePair("session_id", id, decode);
  }

  /** The page's validation call against a given store and upstream answer,
      with the server as written. */
  function WrittenValidator(
    store: AuthStore.Store, upstream: AuthStore.Upstream, now: int, freshId: string,
    normalize: string -> Option<string>)
    : string -> Reply
  {
    id => ValidationReply(AuthStore.ValidateSession(store, Some(id), upstream, now, freshId, normalize))
  }

  /** The page's validation call against a given store and upstream answer,
      with the server as intended. */
  function Validator(
    store: AuthStore.Store, upstream: AuthStore.Upstream, now: int, freshId: string,
    normalize: string -> Option<string>)
    : string -> Reply
  {
    id => ValidationReply(AuthStore.ValidateSessionIntended(store, Some(id), upstream, now, freshId, normalize))
  }

  /** With the server as intended, returning from the portal with a session
      id the upstream service accepts shows the dashboard of the user the
      server logged in, and clears the fragment. */
  lemma SignInShowsDashboard(
    store: AuthStore.Store, pathname: string, id: string, data: AuthStore.SessionData,
    now: int, freshId: string, normalize: string -> Option<string>, decode: string -> string, me: Reply)
    requires id != "" && '&' !in id
    requires decode("session_id") == "session_id" && decode(id) == id
    requires AuthStore.LoginUser(store.users, data, freshId, normalize).Some? && data.sessionToken.Some?
    ensures var st := HandleAuth(ReturnLocation(pathname, id), decode,
        Validator(store, AuthStore.Replied(200, Some(data)), now, freshId, normalize), me);
      var u := AuthStore.LoginUser(store.users, data, freshId, normalize).value;
      st.call == ValidateSession(id)
      && st.location == Location(pathname, "", "")
      && Render(st) == Dashboard(u.name, DisplayRole(Some(u.role)))
  {
    ReturnLocationSessionId(pathname, id, decode);
  }

  /** With the server as written, the same return sends the page home: the
      validation call throws on the 500, although the server has stored the
      user and the session. */
  lemma AcceptedSignInGoesHome(
    store: AuthStore.Store, pathname: string, id: string, data: AuthStore.SessionData,
    now: int, freshId: string, normalize: string -> Option<string>, decode: string -> string, me: Reply)
    requires id != "" && '&' !in id
    requires decode("session_id") == "session_id" && decode(id) == id
    requires AuthStore.LoginUser(store.users, data, freshId, normalize).Some? && data.sessionToken.Some?
    ensures var st := HandleAuth(ReturnLocation(pathname, id), decode,
        WrittenValidator(store, AuthStore.Replied(200, Some(data)), now, freshId, normalize), me);
      st.call == ValidateSession(id) && st.location == Home && Render(st) == NavigateHome
  {
    ReturnLocationSessionId(pathname, id, decode);
  }

  /** A session id the upstream service rejects sends the page home, whether
      the server reports it as 500 (as written) or 401 (as intended): the
      page cannot tell the two apart. */
  lemma RejectedSignInGoesHome(
    store: AuthStore.Store, pathname: string, id: string, status: int,
    now: int, freshId: string, normalize: string -> Option<string>, decode: string -> string, me: Reply)
    requires id != "" && '&' !in id && status != 200
    requires decode("session_id") == "session_id" && decode(id) == id
    ensures var loc := ReturnLocation(pathname, id);
      var upstream := AuthStore.Replied(status, None);
      var written := HandleAuth(loc, decode, WrittenValidator(store, upstream, now, freshId, normalize), me);
      var intended := HandleAuth(loc, decode, Validator(store, upstream, now, freshId, normalize), me);
      written == intended && written.location == Home && Render(written) == NavigateHome
  {
    ReturnLocationSessionId(pathname, id, decode);
  }

  /** With the server as intended, after signing in and out with a fresh
      token, the session check of a later visit presenting the same cookie
      answers "not authenticated", and the page leaves for home. */
  lemma SignOutEndsSession(
    store: AuthStore.Store, data: AuthStore.SessionData, now: int, freshId: string,
    normalize: string -> Option<string>, later: int,
    pathname: string, decode: string -> string, validate: string -> Reply)
    requires AuthStore.FreshLogin(store, data, freshId, normalize)
    requires SessionId(Location(pathname, "", ""), decode).None?
    ensures var login := AuthStore.Admit(store, data, now, freshId, normalize);
      var out := AuthStore.LogoutRequest(login.store, data.sessionToken);
      var answer := AuthStore.Me(out.store, data.sessionToken, None, later, false);
      login.reply.Ok? && login.reply.value.cookie.value == data.sessionToken.value
      && !answer.success
      && Render(HandleAuth(Location(pathname, "", ""), decode, validate, MeReply(answer))) == NavigateHome
      && HandleLogout(Answered(out.success, None)) == Home
  {
  }
}
