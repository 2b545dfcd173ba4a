/** The client side of authentication: the login redirect, the profile page's
    `handleAuth` (a session id in the location's fragment is exchanged for a
    session, otherwise the existing session is asked for), the screen it
    renders, and logout.

    `encodeURIComponent` and the form decoder are parameters, and so are the
    server's answers; a request that fails or answers with a non-2xx status
    is `Threw`, since the HTTP client rejects on both. */
module ProfilePage {
  import opened Wrappers
  import opened Strings
  import opened FormUrlencoded

  /** The authentication portal the login button leaves for. */
  const PortalBase: string := "https://auth.emergentagent.com/"
  const ProfilePath: string := "/profile"

  /** `handleLogin`: the portal, asked to return to this origin's profile page. */
  function LoginRedirect(origin: string, encode: string -> string): (url: string)
    ensures StartsWith(url, PortalBase + "?redirect=")
  {
    PortalBase + "?redirect=" + encode(origin + ProfilePath)
  }

  /** The portal reads back exactly the profile address from the redirect's
      query, when the encoder escapes `&` and its decoder undoes it. */
  lemma LoginRedirectRoundTrip(origin: string, encode: string -> string, decode: string -> string)
    requires forall s :: '&' !in encode(s)
    requires forall s :: decode(encode(s)) == s
    requires decode("redirect") == "redirect"
    ensures var url := LoginRedirect(origin, encode);
      url == PortalBase + "?redirect=" + encode(origin + ProfilePath)
      && Get(SearchParams(url[|PortalBase|..], decode), "redirect") == Some(origin + ProfilePath)
  {
    var url := LoginRedirect(origin, encode);
    var query := url[|PortalBase|..];
    assert query == "?redirect=" + encode(origin + ProfilePath);
    assert query[1..] == "redirect" + "=" + encode(origin + ProfilePath);
    SinglePair("redirect", encode(origin + ProfilePath), decode);
  }

  datatype Location = Location(pathname: string, search: string, hash: string)

  /** Where a hard redirect home lands. */
  const Home: Location := Location("/", "", "")

  /** `location.hash.substring(1)`: the fragment without its `#`. */
  function Fragment(hash: string): (f: string)
    ensures |hash| > 0 ==> [hash[0]] + f == hash
    ensures |hash| == 0 ==> f == ""
  {
    if |hash| == 0 then "" else hash[1..]
  }

  /** The `session_id` parameter of the fragment, the first when repeated;
      none without a fragment. */
  function SessionId(loc: Location, decode: string -> string): (id: Option<string>)
    ensures |loc.hash| <= 1 ==> id.None?
  {
    assert |loc.hash| <= 1 ==> Fragment(loc.hash) == "" && Split("", '&') == [""];
    Get(SearchParams(Fragment(loc.hash), decode), "session_id")
  }

  /** The user as the page reads it. */
  datatype ClientUser = ClientUser(name: string, role: Option<string>)

  /** A server call's outcome as the page sees it. */
  datatype Reply = Threw | Answered(success: bool, user: Option<ClientUser>)

  /** Which of the two calls `handleAuth` makes. */
  datatype Call = ValidateSession(sessionId: string) | WhoAmI

  /** The page after `handleAuth`: the call made, the location, the user and
      whether it is still loading. */
  datatype AuthState = AuthState(call: Call, location: Location, user: Option<ClientUser>, loading: bool)

  /** The call `handleAuth` makes: validation for a non-empty session id,
      otherwise the existing-session check. */
  function ChooseCall(loc: Location, decode: string -> string): (c: Call)
    ensures c.ValidateSession? <==> SessionId(loc, decode).Some? && SessionId(loc, decode).value != ""
    ensures c.ValidateSession? ==> SessionId(loc, decode) == Some(c.sessionId)
  {
    match SessionId(loc, decode)
    case Some(id) => if id != "" then ValidateSession(id) else WhoAmI
    case None => WhoAmI
  }

  /** The answer to a call. */
  function Answer(c: Call, validate: string -> Reply, me: Reply): Reply {
    match c
    case ValidateSession(id) => validate(id)
    case WhoAmI => me
  }

  /** `handleAuth`. A session id is cleared from the location (only the path
      is kept) before validation; a successful answer sets the user; a thrown
      one sends the browser home; loading ends in every case. */
  function HandleAuth(loc: Location, decode: string -> string, validate: string -> Reply, me: Reply)
    : (st: AuthState)
    ensures !st.loading
    ensures st.call == ChooseCall(loc, decode)
    ensures st.user.Some? <==> (var a := Answer(st.call, validate, me); a.Answered? && a.success && a.user.Some?)
    ensures st.user.Some? ==> Answer(st.call, validate, me) == Answered(true, st.user)
    ensures Answer(st.call, validate, me).Threw? ==> st.location == Home && st.user.None?
    ensures !Answer(st.call, validate, me).Threw? ==>
      st.location == if st.call.ValidateSession? then Location(loc.pathname, "", "") else loc
  {
    var c := ChooseCall(loc, decode);
    var cleared := if c.ValidateSession? then Location(loc.pathname, "", "") else loc;
    match Answer(c, validate, me)
    case Threw => AuthState(c, Home, None, false)
    case Answered(success, user) =>
      AuthState(c, cleared, if success then user else None, false)
  }

  /** `user.role || 'Collaborator'`. */
  function DisplayRole(role: Option<string>): (shown: string)
    ensures shown != ""
    ensures role.Some? && role.value != "" ==> shown == role.value
    ensures role.None? || role.value == "" ==> shown == "Collaborator"
  {
    if role.Some? && role.value != "" then role.value else "Collaborator"
  }

  /** Every role the server assigns is shown as it is. */
  lemma ServerRolesShown(role: string)
    requires role == "Admin" || role == "Collaborator" || role == "Scientist"
    ensures DisplayRole(Some(role)) == role
  {
  }

  /** What the page shows. */
  datatype Screen = LoadingScreen | NavigateHome | Dashboard(name: string, role: string)

  function Render(st: AuthState): (s: Screen)
    ensures s.LoadingScreen? <==> st.loading
    ensures s.Dashboard? <==> !st.loading && st.user.Some?
    ensures s.Dashboard? ==> s == Dashboard(st.user.value.name, DisplayRole(st.user.value.role))
  {
    if st.loading then LoadingScreen
    else match st.user
      case None => NavigateHome
      case Some(u) => Dashboard(u.name, DisplayRole(u.role))
  }

  /** The page never shows a partial dashboard: after `handleAuth` it shows the
      dashboard exactly for a successful answer with a user, and otherwise
      leaves for home. */
  lemma AuthOutcome(loc: Location, decode: string -> string, validate: string -> Reply, me: Reply)
    ensures var st := HandleAuth(loc, decode, validate, me);
      var answer := Answer(ChooseCall(loc, decode), validate, me);
      (Render(st).Dashboard? <==> answer.Answered? && answer.success && answer.user.Some?)
      && (!Render(st).Dashboard? ==> Render(st) == NavigateHome)
  {
  }

  /** `handleLogout`: home, whether the logout request succeeded or threw. */
  function HandleLogout(reply: Reply): (next: Location)
    ensures next == Home
  {
    match reply
    case Threw => Home
    case Answered(_, _) => Home
  }
}
