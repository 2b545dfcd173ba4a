/** The authorization checks of the server's endpoints over uploads,
    analyses and users, in the order the handlers make them, and the store
    updates behind them. The caller is whatever `AuthStore.CurrentUser`
    resolved. */
module Guards {
  import opened Wrappers
  import opened Strings
  import opened AuthStore
  import opened Sequences

  const Admin: string := "Admin"
  const Scientist: string := "Scientist"

  /** The roles a user can be given. */
  predicate ValidRole(role: string) {
    role == "Admin" || role == "Collaborator" || role == "Scientist"
  }

  /** The checks of `upload_corneal_image` before any file is read:
      authentication first, then an image content type. */
  function UploadGuard(caller: Option<User>, contentType: Option<string>): (r: Result<User, HttpError>)
    ensures caller.None? ==> r == Err(HttpError(401, "Authentication required"))
    ensures caller.Some? ==>
      (r.Ok? <==> contentType.Some? && StartsWith(contentType.value, "image/"))
    ensures caller.Some? && r.Err? ==>
      r.error == HttpError(400, "Invalid file format. Please upload an image file.")
    ensures r.Ok? ==> r.value == caller.value
  {
    match caller
    case None => Err(HttpError(401, "Authentication required"))
    case Some(u) =>
      if contentType.None? || contentType.value == "" || !StartsWith(contentType.value, "image/") then
        Err(HttpError(400, "Invalid file format. Please upload an image file."))
      else Ok(u)
  }

  /** A stored analysis, with the fields validation writes. */
  datatype Analysis = Analysis(
    id: string,
    userId: string,
    validatedBy: Option<string>,
    notes: Option<string>,
    validationDate: Option<int>)

  /** The analyses owned by `userId`, in store order. */
  function OwnedBy(analyses: seq<Analysis>, userId: string): (rs: seq<Analysis>)
    ensures |rs| <= |analyses|
    ensures forall a :: a in rs <==> a in analyses && a.userId == userId
    ensures |analyses| == 1 ==> rs == if analyses[0].userId == userId then analyses else []
  {
    if |analyses| == 0 then []
    else if analyses[0].userId == userId then [analyses[0]] + OwnedBy(analyses[1..], userId)
    else
      var rest := OwnedBy(analyses[1..], userId);
      assert analyses == [analyses[0]] + analyses[1..];
      rest
  }

  /** The filter keeps store order: filtering two stretches of the store is
      filtering each, one after the other. With the one-analysis case of
      `OwnedBy`, this fixes the result for every store, order and repeats
      included. */
  lemma {:induction false} OwnedByAppend(a: seq<Analysis>, b: seq<Analysis>, userId: string)
    ensures OwnedBy(a + b, userId) == OwnedBy(a, userId) + OwnedBy(b, userId)
    decreases |a|
  {
    if |a| == 0 {
      assert a + b == b;
    } else {
      assert (a + b)[0] == a[0];
      assert (a + b)[1..] == a[1..] + b;
      OwnedByAppend(a[1..], b, userId);
    }
  }

  /** The query of `get_analysis_results`: an administrator sees every
      analysis, anyone else only their own, in store order. */
  function AnalysisResults(analyses: seq<Analysis>, caller: Option<User>): (r: Result<seq<Analysis>, HttpError>)
    ensures caller.None? ==> r == Err(HttpError(401, "Authentication required"))
    ensures caller.Some? ==> r.Ok?
    ensures r.Ok? && caller.value.role == Admin ==> r.value == analyses
    ensures r.Ok? && caller.value.role != Admin ==>
      forall a :: a in r.value <==> a in analyses && a.userId == caller.value.id
    ensures r.Ok? && caller.value.role != Admin ==> r.value == OwnedBy(analyses, caller.value.id)
  {
    match caller
    case None => Err(HttpError(401, "Authentication required"))
    case Some(u) => if u.role == Admin then Ok(analyses) else Ok(OwnedBy(analyses, u.id))
  }

  /** Anyone but an administrator sees the administrator's view narrowed to
      their own analyses; analyses added later show up after the earlier
      ones. */
  lemma OwnViewNarrowsAdminView(analyses: seq<Analysis>, added: seq<Analysis>, admin: User, u: User)
    requires admin.role == Admin && u.role != Admin
    ensures var all := AnalysisResults(analyses + added, Some(admin)).value;
      AnalysisResults(analyses + added, Some(u)).value == OwnedBy(all, u.id)
      && AnalysisResults(analyses + added, Some(u)).value
        == AnalysisResults(analyses, Some(u)).value + OwnedBy(added, u.id)
  {
    OwnedByAppend(analyses, added, u.id);
  }

  /** The first analysis with identifier `id`, as an index. */
  function FindAnalysis(analyses: seq<Analysis>, id: string): nat {
    FirstIndex(analyses, (a: Analysis) => a.id == id)
  }

  /** `validate_analysis`: only scientists and administrators; the first
      analysis with the identifier gets the validator, the notes and the
      time. Reports 404 when the update modifies nothing: no such analysis, or
      one already holding exactly these values. */
  function ValidateAnalysis(analyses: seq<Analysis>, caller: Option<User>, id: string, notes: string, now: int)
    : (r: Result<seq<Analysis>, HttpError>)
    ensures caller.None? || (caller.value.role != Scientist && caller.value.role != Admin) ==>
      r == Err(HttpError(403, "Insufficient permissions"))
    ensures r.Ok? ==> (
      var i := FindAnalysis(analyses, id);
      i < |analyses| && r.value == analyses[i := analyses[i].(validatedBy := Some(caller.value.id), notes := Some(notes), validationDate := Some(now))])
    ensures r.Err? && caller.Some? && (caller.value.role == Scientist || caller.value.role == Admin) ==>
      r.error == HttpError(404, "Analysis not found")
  {
    if caller.None? || (caller.value.role != Scientist && caller.value.role != Admin) then
      Err(HttpError(403, "Insufficient permissions"))
    else
      var i := FindAnalysis(analyses, id);
      if i == |analyses| then Err(HttpError(404, "Analysis not found"))
      else
        var updated := analyses[i].(validatedBy := Some(caller.value.id), notes := Some(notes), validationDate := Some(now));
        if updated == analyses[i] then Err(HttpError(404, "Analysis not found"))
        else Ok(analyses[i := updated])
  }

  /** A scientist or administrator validating an existing analysis succeeds
      whenever the clock has moved since its last validation. */
  lemma ValidationSucceeds(analyses: seq<Analysis>, caller: User, id: string, notes: string, now: int)
    requires caller.role == Scientist || caller.role == Admin
    requires exists a :: a in analyses && a.id == id
    requires forall a :: a in analyses && a.id == id ==> a.validationDate != Some(now)
    ensures ValidateAnalysis(analyses, Some(caller), id, notes, now).Ok?
  {
  }

  /** The most users `get_users` returns. */
  const UserListLimit: nat := 1000

  /** `get_users`: administrators only; the first thousand users in store order. */
  function ListUsers(users: seq<User>, caller: Option<User>): (r: Result<seq<User>, HttpError>)
    ensures caller.None? || caller.value.role != Admin ==> r == Err(HttpError(403, "Admin access required"))
    ensures caller.Some? && caller.value.role == Admin ==> r.Ok?
    ensures r.Ok? ==> |r.value| <= UserListLimit && r.value <= users
    ensures r.Ok? && |users| <= UserListLimit ==> r.value == users
    ensures r.Ok? && |users| > UserListLimit ==> |r.value| == UserListLimit
  {
    if caller.None? || caller.value.role != Admin then Err(HttpError(403, "Admin access required"))
    else if |users| <= UserListLimit then Ok(users)
    else Ok(users[..UserListLimit])
  }

  /** `update_user_role` as written: after the permission and role checks, a
      404 "User not found" whenever the update modifies nothing, which
      includes an existing user who already has the role. */
  function UpdateUserRole(users: seq<User>, caller: Option<User>, userId: string, role: string)
    : (r: Result<seq<User>, HttpError>)
    ensures caller.None? || caller.value.role != Admin ==> r == Err(HttpError(403, "Admin access required"))
    ensures caller.Some? && caller.value.role == Admin && !ValidRole(role) ==> r == Err(HttpError(400, "Invalid role"))
    ensures r.Ok? <==> (caller.Some? && caller.value.role == Admin && ValidRole(role)
      && FindUser(users, userId) < |users| && users[FindUser(users, userId)].role != role)
    ensures r.Ok? ==> var i := FindUser(users, userId); r.value == users[i := users[i].(role := role)]
  {
    if caller.None? || caller.value.role != Admin then Err(HttpError(403, "Admin access required"))
    else if !ValidRole(role) then Err(HttpError(400, "Invalid role"))
    else
      var i := FindUser(users, userId);
      if i == |users| || users[i].role == role then Err(HttpError(404, "User not found"))
      else Ok(users[i := users[i].(role := role)])
  }

  /** `update_user_role` with "User not found" reserved for a missing user:
      assigning a user the role they already have succeeds and changes
      nothing. */
  function UpdateUserRoleIntended(users: seq<User>, caller: Option<User>, userId: string, role: string)
    : (r: Result<seq<User>, HttpError>)
    ensures caller.None? || caller.value.role != Admin ==> r == Err(HttpError(403, "Admin access required"))
    ensures caller.Some? && caller.value.role == Admin && !ValidRole(role) ==> r == Err(HttpError(400, "Invalid role"))
    ensures r.Ok? <==> (caller.Some? && caller.value.role == Admin && ValidRole(role)
      && FindUser(users, userId) < |users|)
    ensures r.Ok? ==> var i := FindUser(users, userId);
      r.value == users[i := users[i].(role := role)] && r.value[i].role == role
  {
    if caller.None? || caller.value.role != Admin then Err(HttpError(403, "Admin access required"))
    else if !ValidRole(role) then Err(HttpError(400, "Invalid role"))
    else
      var i := FindUser(users, userId);
      if i == |users| then Err(HttpError(404, "User not found"))
      else Ok(users[i := users[i].(role := role)])
  }

  /** An administrator confirming a user's current role is told the user does
      not exist by the code as written, and succeeds without change under the
      intended reading. */
  lemma UnchangedRoleReportsMissingUser(users: seq<User>, admin: User, i: nat)
    requires admin.role == Admin && i < |users| && ValidRole(users[i].role)
    requires UniqueIds(users)
    ensures UpdateUserRole(users, Some(admin), users[i].id, users[i].role) == Err(HttpError(404, "User not found"))
    ensures UpdateUserRoleIntended(users, Some(admin), users[i].id, users[i].role) == Ok(users)
  {
    var j := FindUser(users, users[i].id);
    assert j == i;
    assert users[i := users[i].(role := users[i].role)] == users;
  }

  /** A role change touches one user's role: identifiers, e-mail addresses
      and every other field stay, so identifiers stay unique. */
  lemma RoleChangeKeepsIdentities(users: seq<User>, caller: Option<User>, userId: string, role: string)
    requires UniqueIds(users)
    requires UpdateUserRoleIntended(users, caller, userId, role).Ok?
    ensures var us := UpdateUserRoleIntended(users, caller, userId, role).value;
      |us| == |users| && UniqueIds(us)
      && forall k :: 0 <= k < |us| ==> us[k] == users[k].(role := us[k].role)
  {
  }

  /** A first-time user signs in as a Collaborator: until the session
      expires the token passes the upload check with an image, and is refused
      the user list, role changes and analysis validation. */
  lemma {:induction false} NewcomerIsCollaborator(
    store: Store, data: SessionData, now: int, freshId: string, normalize: string -> Option<string>, later: int,
    analyses: seq<Analysis>, userId: string, role: string, id: string, notes: string)
    requires UniqueIds(store.users)
    requires forall u :: u in store.users ==> u.id != freshId
    requires FreshLogin(store, data, freshId, normalize)
    requires FindEmail(store.users, data.email.value) == |store.users|
    requires now <= later < now + SessionLifetime
    ensures var after := Admit(store, data, now, freshId, normalize).store;
      var caller := CurrentUser(after, data.sessionToken, None, later, false);
      caller.Some? && caller.value.role == DefaultRole && Some(caller.value.email) == normalize(data.email.value)
      && UploadGuard(caller, Some("image/png")) == Ok(caller.value)
      && ListUsers(after.users, caller) == Err(HttpError(403, "Admin access required"))
      && UpdateUserRole(after.users, caller, userId, role) == Err(HttpError(403, "Admin access required"))
      && ValidateAnalysis(analyses, caller, id, notes, later) == Err(HttpError(403, "Insufficient permissions"))
  {
    LoginThenMe(store, data, now, freshId, normalize, later);
    assert StartsWith("image/png", "image/") by {
      assert "image/png"[..|"image/"|] == "image/";
    }
  }

  /** A user an administrator promotes is, from the same token, an
      administrator: the session still resolves to them, now with the role,
      and the user list is theirs to read. */
  lemma PromotionGrantsUserList(store: Store, token: string, now: int, admin: User)
    requires admin.role == Admin
    requires CurrentUser(store, Some(token), None, now, false).Some?
    ensures var me := CurrentUser(store, Some(token), None, now, false).value;
      var update := UpdateUserRoleIntended(store.users, Some(admin), me.id, Admin);
      update.Ok?
      && CurrentUser(store.(users := update.value), Some(token), None, now, false) == Some(me.(role := Admin))
      && ListUsers(update.value, Some(me.(role := Admin))).Ok?
  {
  }
}
