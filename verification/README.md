# CornealAI: language, sign-in and authorization logic

A Dafny model of the decision logic of CornealAI, a web application for AI-assisted corneal diagnostics. The model covers:

- **Translations.** The bilingual translation table and its dotted-key lookup `t`, which falls back to the key itself.
- **Language provider.** Which language it settles on: a saved preference, or location detection racing a five-second timer. Also `changeLanguage` and the `useLanguage` guard.
- **Language toggle.** The button and its label.
- **Profile page.** The login redirect, exchanging the session id from the URL fragment (or asking for the current session), the screen that follows, and logout.
- **Server.** Authentication over a store of users and sessions: `get_current_user`, `/auth/me`, `/auth/validate-session` and `/auth/logout`. Also the authorization checks of the upload, analysis and user endpoints, in their order.

The model is functional. Every operation is a pure function over immutable datatypes:

- Values of the translation table are strings, arrays or objects. An object is a list of fields, and a lookup takes the first field with the given name (an object literal carries each name once).
- The server's store holds users and sessions as sequences in insertion order. A database query's first match is the first matching element.
- Time is an integer number of seconds.
- Browser storage is a map from keys to strings.

Whatever the code obtains from outside is an input:

- the geolocation and reverse-geocoding outcome, or the order in which their callbacks and the timer run;
- the upstream session-data service's answer, with each field the handler reads present or absent;
- the server's replies as the page receives them;
- the identifier of a new user, and the validation and normalization of a new user's e-mail address;
- percent-encoding and percent-decoding.

Files, one module each:

| file | module | models |
|---|---|---|
| wrappers.dfy | Wrappers | `Option` and `Result` |
| sequences.dfy | Sequences | first match in a sequence |
| strings.dfy | Strings | `split`/join on one character, `indexOf`, ASCII upper-casing |
| translations.dfy | Translations | the value tree, `t`, `useTranslation`, shape comparison |
| translation_table.dfy | TranslationTable | the English and Portuguese tables, and facts about them |
| language_context.dfy | LanguageContext | detection, the settle-once race, the provider's state |
| language_toggle.dfy | LanguageToggle | the toggle button |
| form_urlencoded.dfy | FormUrlencoded | the `application/x-www-form-urlencoded` parser of section 5.1 of the WHATWG URL Standard, `URLSearchParams` and its `get` (section 6.2), and the serializer (section 5.2) |
| profile_page.dfy | ProfilePage | `handleLogin`, `handleAuth`, the rendered screen, `handleLogout` |
| auth_store.dfy | AuthStore | the server's authentication endpoints |
| guards.dfy | Guards | the authorization checks and the store updates behind them |
| handshake.dfy | Handshake | the page and the server together |

## Model

| member | source | states |
|---|---|---|
| Strings.Split | frontend/src/translations/index.js:181 | `key.split('.')` yields at least one piece, no piece holds the separator, and joining the pieces gives the key back |
| Strings.SplitJoin | frontend/src/translations/index.js:181 | splitting a join of separator-free pieces gives exactly those pieces |
| Strings.Upper | frontend/src/components/LanguageToggle.js:10-23 | the reference definition the label is checked against: upper-casing keeps the length and maps each ASCII lower-case letter to its capital, so `Upper("pt")` is `PT` |
| Translations.ArrayIndexRoundTrip | frontend/src/translations/index.js:185 | an array accepts a segment as an index exactly when it is the canonical decimal form of that index |
| Translations.Child | frontend/src/translations/index.js:185 | one step `value?.[k]`: strings have no children, arrays take canonical in-range indices, and an object gives exactly the value `FieldValue` finds for the name |
| Translations.FieldValueAt | frontend/src/translations/index.js:185 | an object's lookup of a name gives the value of the first field with that name: a field is found when no earlier field has its name |
| Translations.Walk | frontend/src/translations/index.js:184-186 | the `value?.[k]` loop: an empty path stays put, one segment is one `Child` step, and once the value is `undefined` it stays `undefined` |
| Translations.WalkAppend | frontend/src/translations/index.js:184-186 | walking a dotted path is walking its prefix and then the rest from wherever the prefix ended |
| Translations.Translate | frontend/src/translations/index.js:180-189 | `t(key)` is either the key itself or a truthy value found at the key's path |
| Translations.TranslateCases | frontend/src/translations/index.js:185-188 | a resolving key gives the found value; any other key gives the key, including a found empty string |
| Translations.UseTranslation | frontend/src/translations/index.js:191 | the hook's `translations` is exactly the language's subtree (none for an unknown language) |
| Translations.TranslateFromSubtree | frontend/src/translations/index.js:179-192 | `t` agrees with walking the key's segments from the subtree the hook returns |
| Translations.UnknownLanguageFallsBack | frontend/src/translations/index.js:182-188 | a language without a subtree translates every key to itself |
| Translations.SameShapeResolves | frontend/src/translations/index.js:180-188 | two languages with identically shaped subtrees resolve exactly the same keys |
| Translations.TranslateIndexed | frontend/src/translations/index.js:181-188 | the key `name.n` reaches the n-th element of list `name`, and `t` returns it when truthy |
| Translations.TranslateMissingSegment | frontend/src/translations/index.js:185-188 | a key whose first segment is missing translates to itself |
| TranslationTable.EnglishPortugueseSameShape | frontend/src/translations/index.js:1-177 | the English and Portuguese tables have the same fields in the same order, the same list lengths, and empty strings in the same places |
| TranslationTable.Languages | frontend/src/translations/index.js:1-177 | the table has subtrees for exactly `en` and `pt` |
| TranslationTable.KeyParity | frontend/src/translations/index.js:1-177 | every key resolves in English if and only if it resolves in Portuguese |
| TranslationTable.UnsupportedLanguage | frontend/src/translations/index.js:182-188 | any language other than `en` and `pt` translates every key to itself |
| TranslationTable.FeatureListsHaveFourEntries | frontend/src/translations/index.js:24-137 | the admin, collaborator and scientist feature lists have exactly four non-empty entries in both languages |
| TranslationTable.FeatureEntryLookup | frontend/src/translations/index.js:24-137 | `t("adminFeatures.0")` to `t("scientistFeatures.3")` return the list entries in both languages |
| TranslationTable.NonexistentKey | frontend/src/translations/index.js:180-188 | `t("nonexistent.key")` is the key itself in both languages |
| LanguageContext.CountryLanguage | frontend/src/contexts/LanguageContext.js:43-50 | a country code selects Portuguese exactly for `BR` and `PT`, and English otherwise, including when it is missing |
| LanguageContext.DetectedLanguage | frontend/src/contexts/LanguageContext.js:19-66 | detection yields `pt` exactly when a position arrived first and the reverse geocoding answered ok with `BR` or `PT`; every other outcome yields `en` |
| LanguageContext.Resolve | frontend/src/contexts/LanguageContext.js:19 | a promise resolves once; later resolutions leave it unchanged |
| LanguageContext.StartDetection | frontend/src/contexts/LanguageContext.js:20-28 | detection is pending with the timer armed exactly when geolocation exists, and is already `en` otherwise |
| LanguageContext.Step | frontend/src/contexts/LanguageContext.js:26-63 | a callback leaves the timer disarmed; it settles a pending detection with the language of its own outcome unless it is a timer that was already cleared, or a position whose reverse-geocoding request never ends, which settles nothing; a settled detection never changes |
| LanguageContext.Run | frontend/src/contexts/LanguageContext.js:19-66 | after detection settles, no later timer, position or error callback changes the result; a pending detection with the timer armed ends with the first callback's outcome when that callback ends |
| LanguageContext.FirstCallbackWins | frontend/src/contexts/LanguageContext.js:19-66 | a first callback that ends decides detection, with the language `DetectedLanguage` gives its outcome; without geolocation the result is `en` |
| LanguageContext.TimeoutIsFinal | frontend/src/contexts/LanguageContext.js:26-32 | a timer firing first gives `en`, and a position arriving later, even from Brazil, does not change it |
| LanguageContext.UnansweredGeocodingNeverSettles | frontend/src/contexts/LanguageContext.js:26-42 | the position callback clears the timer before awaiting the reverse-geocoding request, so a request that never answers leaves detection pending for good; on a first load the provider stays in English with loading on and saves nothing |
| LanguageContext.Mount | frontend/src/contexts/LanguageContext.js:14-15 | the provider starts in English with loading on |
| LanguageContext.BeginInitialize | frontend/src/contexts/LanguageContext.js:73-76 | the part before detection: a non-empty saved preference is applied at once and loading ends; otherwise the state is unchanged and still loading |
| LanguageContext.FinishInitialize | frontend/src/contexts/LanguageContext.js:79-84 | when detection settles, the detected language is applied and saved whatever the state is by then, loading ends, and other storage keys are kept |
| LanguageContext.Initialize | frontend/src/contexts/LanguageContext.js:71-85 | with nothing running in between: a non-empty saved preference is used as-is and storage is untouched; a missing or empty one is replaced by the detected language in both state and storage; loading ends on both paths |
| LanguageContext.InitializePersists | frontend/src/contexts/LanguageContext.js:73-82 | after initialization, storage holds the language in use and a non-empty value, so the next load will not run detection |
| LanguageContext.SavedPreferenceSkipsDetection | frontend/src/contexts/LanguageContext.js:73-76 | with a saved preference, the detection outcome has no influence |
| LanguageContext.ReloadKeepsLanguage | frontend/src/contexts/LanguageContext.js:73-82 | a second page load settles on the language of the first, whatever its own detection finds |
| LanguageContext.DefaultWithoutGeolocation | frontend/src/contexts/LanguageContext.js:20-23 | without geolocation or a saved preference, the language and the saved value are `en` |
| LanguageContext.ChangeLanguage | frontend/src/contexts/LanguageContext.js:90-93 | after `changeLanguage(x)`, the language and the saved value are both `x`, other storage keys and loading are unchanged |
| LanguageContext.ChangeSurvivesReload | frontend/src/contexts/LanguageContext.js:73-93 | a non-empty language chosen explicitly, as the last write to storage, is the language after the next load |
| LanguageContext.ChangeDuringDetectionIsLost | frontend/src/contexts/LanguageContext.js:73-93 | a language chosen while first-run detection is pending is overwritten by the detected language, in the state and in storage, and the next load keeps the detected one |
| LanguageContext.UseLanguage | frontend/src/contexts/LanguageContext.js:5-11 | `useLanguage` returns the provider's value, and raises its error exactly when there is no provider |
| LanguageToggle.Toggle | frontend/src/components/LanguageToggle.js:10 | the target is always `en` or `pt`, and it is `en` exactly when the language is `pt` |
| LanguageToggle.Label | frontend/src/components/LanguageToggle.js:10-24 | the label is the upper-cased target of the toggle, so it is `EN` exactly when the language is `pt` |
| LanguageToggle.ToggleTwice | frontend/src/components/LanguageToggle.js:10 | toggling twice restores `en` and `pt`, and turns any other value (such as `fr`) into `en` |
| LanguageToggle.Click | frontend/src/components/LanguageToggle.js:9-12 | a click switches to the toggle target and saves it |
| LanguageToggle.ClickTwice | frontend/src/components/LanguageToggle.js:9-12 | two clicks restore the provider's whole state, storage included, when the saved language is `en` or `pt` |
| LanguageToggle.Caption | frontend/src/components/LanguageToggle.js:6-24 | the rendered label, read through `useLanguage`: the upper-cased toggle target inside a provider, the hook's error outside one |
| LanguageToggle.Press | frontend/src/components/LanguageToggle.js:6-12 | pressing the button inside a provider switches to the toggle target and saves it; outside a provider the hook raises its error |
| LanguageToggle.PressOffersWayBack | frontend/src/components/LanguageToggle.js:6-24 | for `en` and `pt`, after a press the caption names the language left behind, and a second press restores the whole state |
| FormUrlencoded.SplitPair | frontend/src/App.js:330 | a piece splits at its first `=`: the name has no `=`, and name, `=` and value give the piece back; a piece without `=` is a name with an empty value |
| FormUrlencoded.PiecePairs | frontend/src/App.js:330 | an empty piece gives no pair and a non-empty one gives its `SplitPair`, and there are never more pairs than pieces |
| FormUrlencoded.PiecePairsOfNonEmpty | frontend/src/App.js:330 | without empty pieces, the pairs are exactly the split pieces, in order |
| FormUrlencoded.PiecePairsAppend | frontend/src/App.js:330 | the pairs of two stretches of pieces are the pairs of each, in order, which with the one-piece case fixes the pairs of every input |
| FormUrlencoded.SearchParams | frontend/src/App.js:330 | `new URLSearchParams(s)` parses `s` without a leading `?` |
| FormUrlencoded.Get | frontend/src/App.js:331 | `get(name)` is none exactly when no pair has the name, and otherwise the value of the first pair that has it |
| FormUrlencoded.ParseSerialize | frontend/src/App.js:330 | parsing a serialization gives back the same pairs in order, when decoding undoes encoding |
| FormUrlencoded.FirstPairWins | frontend/src/App.js:331 | for `name=a&name=b`, `get(name)` is `a` |
| ProfilePage.LoginRedirect | frontend/src/App.js:29-32 | the login URL is the portal's address with a `redirect` query parameter |
| ProfilePage.LoginRedirectRoundTrip | frontend/src/App.js:30-31 | the portal decodes the `redirect` parameter back to exactly this origin followed by `/profile` |
| ProfilePage.Fragment | frontend/src/App.js:329 | `hash.substring(1)` drops the `#` and is empty for an empty hash |
| ProfilePage.SessionId | frontend/src/App.js:329-331 | there is no session id without a fragment (an empty hash or a bare `#`) |
| ProfilePage.ChooseCall | frontend/src/App.js:329-333 | validation is called exactly when the fragment's first `session_id` is non-empty, and with that id; otherwise `/auth/me` is called |
| ProfilePage.HandleAuth | frontend/src/App.js:326-360 | the user is set only from a successful answer with a user; a thrown call sends the browser to `/`; a session id is cleared from the location, keeping only the path; loading always ends |
| ProfilePage.DisplayRole | frontend/src/App.js:409 | the shown role is never empty: the user's role when it is non-empty, and `Collaborator` otherwise |
| ProfilePage.ServerRolesShown | frontend/src/App.js:409 | every role the server assigns is shown unchanged |
| ProfilePage.Render | frontend/src/App.js:375-409 | the page shows loading while loading, a dashboard exactly when there is a user, and otherwise navigates to `/` |
| ProfilePage.AuthOutcome | frontend/src/App.js:343-385 | after `handleAuth`, the page shows the dashboard exactly for a successful answer with a user, and otherwise navigates home |
| ProfilePage.HandleLogout | frontend/src/App.js:365-373 | logout ends at `/` whether the request succeeds or throws |
| AuthStore.RequestToken | backend/server.py:146-156 | a non-empty cookie wins; the bearer credential counts only when the cookie is missing or empty; an empty token counts as none |
| Sequences.FirstIndex | backend/server.py:160-169 | a query's match is the first matching record: every earlier record fails the condition, and the result is past the end exactly when none matches |
| AuthStore.CurrentUser | backend/server.py:140-177 | the user is the first user with the identifier of the first live session for the request's token; no token, no live session, a missing user or a database failure give none |
| AuthStore.Me | backend/server.py:260-267 | `/auth/me` succeeds exactly when there is a current user, and returns that user |
| AuthStore.LoginUser | backend/server.py:202-218 | the login's user is the first stored user whose address equals the upstream e-mail address as sent, or else a new Collaborator holding the normalized address; there is none exactly when the answer lacks the address, or a new user lacks the name or has an address that `EmailStr` validation rejects |
| AuthStore.RecordLogin | backend/server.py:204-219 | a returning user's count stays and only a record with their identifier changes, in its login time; a new address that validates appends exactly the new user, with the normalized address; an answer the upsert cannot use changes nothing |
| AuthStore.ReturningUser | backend/server.py:204-210 | a returning user's record changes only in its login time, and no other record changes |
| AuthStore.RecordLoginUniqueIds | backend/server.py:212-219 | logging in keeps user identifiers unique when the new identifier is unused |
| AuthStore.Admit | backend/server.py:202-251 | the handler after a readable 200 answer, as intended: the upsert is always written; success exactly when the user and the session token are there, appending one session with the upstream token and a seven-day expiry, with the cookie carrying the same token and expiry; otherwise 500 with the sessions unchanged |
| AuthStore.ValidateSession | backend/server.py:184-258 | as written, validation never succeeds: a missing or empty session id gives 400; an unreachable upstream gives 500; a rejected session id or a body that is not an object gives 500 with the store untouched; a readable 200 answer writes what the intended handler writes, user and session included, and still answers 500 "Authentication failed" |
| AuthStore.ValidateSessionIntended | backend/server.py:196-251 | a rejected session id gives 401; an accepted answer holding the user and the session token succeeds with the user and the cookie, and nothing else does; every case writes exactly what the code as written writes |
| AuthStore.RejectedSessionIs500 | backend/server.py:196-258 | the 401 raised for a rejected session id reaches the client as 500, and the store is untouched |
| AuthStore.AcceptedSessionIs500 | backend/server.py:232-258 | an accepted session id reaches the client as 500 after the user and the new session are stored, because the answer's `created_at` cannot be encoded; as intended, the same writes come with the user and the cookie |
| AuthStore.TokenlessAnswerKeepsNewUser | backend/server.py:202-222 | an accepted answer without `session_token` fails with 500 after a first-time user has been inserted, with the normalized address, so the user stays without a session |
| AuthStore.RewrittenAddressAddsUserTwice | backend/server.py:202-219 | a first-time address that validation rewrites is stored rewritten while the lookup uses it as sent, so logging in twice with the same answer creates two users with the same stored address |
| AuthStore.LoginThenMe | backend/server.py:160-232 | after a login with a fresh token, the token authenticates the stored user until the expiry, and not from then on; the store is the same whether the answer is the intended success or the 500 as written |
| AuthStore.RemoveSession | backend/server.py:277 | logout deletes the first session holding the token, and nothing when none does |
| AuthStore.LogoutRequest | backend/server.py:269-282 | logout always reports success and clears the cookie; it removes a session only for a non-empty cookie and never touches users |
| AuthStore.LoginThenLogout | backend/server.py:241-277 | with validation as intended, logging out with the login's cookie removes exactly the session that login added |
| Guards.UploadGuard | backend/server.py:356-360 | a missing user gives 401 before the content type is looked at; a user passes exactly with a content type starting with `image/`, and gets 400 otherwise |
| Guards.OwnedBy | backend/server.py:421 | the filtered analyses are exactly those owned by the user; a single analysis is kept exactly when it is the user's |
| Guards.OwnedByAppend | backend/server.py:421 | the filter keeps store order and repeats: filtering two stretches of the store is filtering each, one after the other |
| Guards.AnalysisResults | backend/server.py:417-423 | a missing user gives 401; an administrator sees every analysis, anyone else exactly their own, in store order |
| Guards.OwnViewNarrowsAdminView | backend/server.py:417-423 | a non-administrator's view is the administrator's view filtered to their analyses, and analyses added later appear after the earlier ones |
| Guards.ValidateAnalysis | backend/server.py:434-451 | only scientists and administrators (403 otherwise); success writes validator, notes and time into the first analysis with the identifier; otherwise 404 |
| Guards.ValidationSucceeds | backend/server.py:437-449 | validating an existing analysis succeeds whenever the clock has moved since its last validation |
| Guards.ListUsers | backend/server.py:457-461 | administrators only (403 otherwise); the result is a prefix of the users of at most a thousand, and all of them when there are no more |
| Guards.UpdateUserRole | backend/server.py:471-485 | 403 before 400 before 404; success exactly for an administrator, a valid role and an existing user whose role differs, changing only that user's role |
| Guards.UpdateUserRoleIntended | backend/server.py:477-483 | 404 only for a missing user; an existing user gets the role, unchanged or not |
| Guards.UnchangedRoleReportsMissingUser | backend/server.py:477-483 | re-assigning a user's current role gives 404 "User not found" as written, and succeeds without change as intended |
| Guards.RoleChangeKeepsIdentities | backend/server.py:477-480 | a role change keeps every user's other fields, so identifiers stay unique |
| Guards.NewcomerIsCollaborator | backend/server.py:202-232 | a first-time user's fresh session resolves to a Collaborator with the normalized address, who passes the upload check with an image and gets 403 from the user list, role changes and analysis validation |
| Guards.PromotionGrantsUserList | backend/server.py:457-483 | after an administrator gives a signed-in user the Admin role, the same token resolves to that user with the role, and the user list opens to them |
| Handshake.ValidationReply | frontend/src/App.js:338-356 | the page sees a thrown call exactly when validation returns an error status, and otherwise the success flag of the body |
| Handshake.ReturnLocationSessionId | frontend/src/App.js:329-331 | the page reads the portal's session id back from `#session_id=...` |
| Handshake.SignInShowsDashboard | frontend/src/App.js:333-345 | with the server as intended, returning with an accepted session id validates that id, clears the fragment, and shows the dashboard of the user the server logged in |
| Handshake.AcceptedSignInGoesHome | frontend/src/App.js:333-356 | with the server as written, returning with an accepted session id validates that id and ends at `/` with no user, because the call throws on the 500 |
| Handshake.RejectedSignInGoesHome | frontend/src/App.js:338-356 | a rejected session id sends the page home, and the page behaves the same whether the server answers 500 or 401 |
| Handshake.SignOutEndsSession | backend/server.py:269-282 | with the server as intended, after signing in and out, the login's cookie no longer authenticates, the page's session check navigates home, and logout lands on `/` |

## Left out

- Translation lookup covers only the table's own keys. JavaScript would also find inherited properties (`constructor`, `length`) and characters of strings (`"abc"[0]`). The English/Portuguese key parity is proved under this restriction.
- Array segments that are not canonical decimals: `"01"`, `"+1"` and `" 1"` are absent in the model. They are also absent in JavaScript, which does not treat them as array indices.
- The geolocation service, the reverse-geocoding `fetch`, the timer and `localStorage` are not called. Their outcomes, and the order in which their callbacks run, are inputs. The five-second timeout is represented only by where the timer's callback falls in that order. A reverse-geocoding request that never ends is one of those outcomes. The coordinates and the request URL are not modelled.
- React state updates are applied together. Re-renders, effect scheduling and console logging are left out. Initialization is modelled in its two parts, before and after detection, so a language change can fall between them.
- Percent-encoding (`encodeURIComponent`) and form decoding are function parameters. Where a lemma needs the standard's guarantee (decoding undoes encoding; encoding escapes `&`), it states that guarantee as a requirement.
- The landing page beyond `handleLogin` is left out: the mouse parallax (floating point), the menu and the markup.
- The analysis pipeline is left out: MONAI and torch model setup, `process_corneal_image`, its probabilities and its 0.1 threshold. These are floating-point numerics over an opaque network. The health check is left out for the same reason.
- For uploads, only the checks before the file is read are modelled. Writing and cleaning up the temporary file, and creating the analysis and file records, are I/O.
- Guards.AnalysisResults: ignores the `skip` and `limit` paging of the query. The driver's handling of a zero or negative `limit` is outside the model.
- AuthStore.LoginUser: the validation and normalization `EmailStr` applies to a new user's address is a function parameter, because it belongs to a library outside the model. A stored record is assumed to hold an address that validates unchanged.
- AuthStore.ValidateSession: a database failure during the upsert, and a stored record that fails validation when it is loaded, are not modelled. Both end in the same 500 "Authentication failed". An answer field of the wrong type is treated as absent. For `email`, `name` and `session_token` this leads to the same 500 as in the code. A new user's `picture` of the wrong type is also read as absent, where the code would refuse the record with a 500.
- AuthStore.CurrentUser: database failures and invalid stored records are folded into one flag, `fault`.
- Guards.ValidateAnalysis: the clock counts whole seconds, while the server's clock has microseconds. The 404 for an update that changes nothing can therefore occur in the model where it practically cannot on the server.
- Record creation times, session identifiers and generated user identifiers are not modelled. A new user's identifier is a parameter.
- The HTTP transport, CORS, the upstream HTTP client and startup/shutdown hooks are left out.

## Findings

| source | as written | input that shows it | evidently intended | confidence | as-written member | corrected member |
|---|---|---|---|---|---|---|
| backend/server.py:196-258 | the `HTTPException(401, "Invalid session")` raised for a rejected session id is inside the `try` whose `except Exception` turns it into 500 "Authentication failed" | `X-Session-ID: abc`, with the upstream service answering 401 | 401 "Invalid session" | high, not executed | AuthStore.RejectedSessionIs500 | AuthStore.ValidateSessionIntended |
| backend/server.py:232-258 | the success answer is a `JSONResponse` holding `user.dict()`, whose `created_at` is a `datetime` that the JSON encoder refuses; the resulting error is caught by `except Exception` and answered with 500 "Authentication failed", after the user and the session are written and before the cookie is set | any accepted session id whose answer holds an e-mail address, a name and `session_token` | 200 with the user and the `session_token` cookie | high, not executed | AuthStore.AcceptedSessionIs500 | AuthStore.ValidateSessionIntended |
| backend/server.py:477-483 | the 404 "User not found" test uses `modified_count`, which is 0 for an existing user who already has the role | an administrator setting role `Scientist` on an existing Scientist | success with no change; 404 only when no user matches (`matched_count == 0`) | medium, not executed | Guards.UnchangedRoleReportsMissingUser | Guards.UpdateUserRoleIntended |

The first finding does not change what the page shows: `Handshake.RejectedSignInGoesHome` proves that a rejected sign-in lands home whether the server answers 500 or 401. The second does. `Handshake.AcceptedSignInGoesHome` proves that with the server as written every sign-in through the portal ends at `/`, although the server has stored the session. `Handshake.SignInShowsDashboard`, `Handshake.SignOutEndsSession` and `AuthStore.LoginThenLogout` are about the server as intended, through `AuthStore.ValidateSessionIntended` and `AuthStore.Admit`. Role changes are proved about `Guards.UpdateUserRoleIntended`.
