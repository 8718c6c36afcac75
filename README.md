# Multi-role browser session manager, modelled in Dafny

The application lets one browser hold several logins at once, one for each
role: `super_admin`, `admin`, `client` and `user`. Each role's access
credential lives in its own cookie slot (`super_admin_token`, `admin_token`,
`client_token`, `user_token`).

A session provider then decides:
- which role the tab acts as;
- which credential each outgoing request carries;
- how a `401` response triggers one shared refresh;
- what loading the signed-in identity, the start-up bootstrap and logout do
  to the slots.

Around the provider sit some pure decisions:
- the route guard of each role area;
- the sidebar;
- the landing page's redirect;
- the role rule of the administrator login form;
- the checks and filters of the user registration form's one-time-password
  steps.

The project is organised as follows:

- `js_values.dfy` (`JsValues`): nullable strings, JavaScript truthiness and `a || b`.
- `roles.dfy` (`Roles`): the four roles, their path prefixes and dashboards. It
  also defines the path-to-role chain once; the application writes it out in
  three places.
- `cookies.dfy` (`Cookies`): the cookie jar as a sequence of cookies in
  document order, its `document.cookie` string, and `getCookie`. `getCookie` is
  modelled literally, with JavaScript's `String.split` semantics. The lemmas
  relate the parsed string to the jar's name-to-value view (first cookie of a
  name wins). A duplicated name reads as `null`.
- `token_store.dfy` (`TokenStore`): the role-to-slot map and `getAccessToken`,
  both on the cookie string and on the view. A lemma proves the two agree. The
  class `CookieJar` mutates the jar (`setCookie`, `deleteCookie`,
  `setAccessToken`, `clearTokenForRole`, `clearAllTokens`). Every method is
  specified by its effect on the view.
- `identities.dfy` (`Identities`): the `/auth/me` identity and the three
  role-of-identity readings (session, guard, pages), with the lemmas that say
  where they differ.
- `auth_context.dfy` (`AuthContext`): the refresh single-flight as the class
  `RefreshCoordinator`, and the provider as the class `Session`. Each `Session`
  method is specified by a pure transition function on a `World`, which holds
  the provider's fields and the jar's view. The properties are lemmas about
  those functions.
- `require_auth.dfy`, `sidebar.dfy`, `landing.dfy`: the guard, the sidebar and the landing redirect.
- `admin_login.dfy` (`AdminLogin`): the existing-session check and the
  submission rule, including the class `AdminLoginForm`.
- `user_register.dfy` (`UserRegister`): JavaScript `trim`, ASCII lower-casing,
  the ordered code checks, the payloads, the mobile filter, and the class
  `RegistrationForm`.

Network answers (`/auth/me`, `/auth/refresh`, the login and code endpoints) are
parameters of the methods that consume them. The current pathname is a
parameter too. The refresh promise becomes two explicit events: `Join` starts
or joins the refresh and `Settle` ends it. The answer to the `/auth/me`
request of `loadMe` (`AuthContext.MeAnswer`) is either the lookup itself or a
401 followed by the refresh endpoint's outcome and the answer to the resent
request. On a 401, `Session.LoadMe` runs the response interceptor, which joins
the shared refresh under the identity's role. It then settles that refresh
and stores its result before `loadMe` resumes. `AuthContext.MeCallOf` turns
the answer into the settled `AuthContext.MeCall`, with the tag the shared
refresh hands out.

Four behaviours of the code that the lemmas make explicit:
- **Clearing every slot.** Storing a credential clears every slot when
  either the credential or the role is missing (`src/lib/tokenStore.js:61-67`),
  not only on logout (`TokenStore.AfterSetAccessToken`,
  `TokenStore.FalsyStoreClearsAll`).
- **What logout clears.** Logout clears all four slots when no role can be
  resolved (`src/context/AuthContext.jsx:165-169`). It clears nothing when the
  resolved role is not one of the four (`AuthContext.LogoutIsolation`).
- **Refresh without a role.** A refresh tagged with no role while no identity
  is loaded stores the new credential under no role. That clears all four
  slots (`AuthContext.SetTokenWithoutRole`).
- **A refresh inside `loadMe`.** The `/auth/me` request of `loadMe` passes
  through the response interceptor (`src/context/AuthContext.jsx:81-100`).
  When it is answered 401, the shared refresh stores its credential first.
  `loadMe` then writes back the credential it read before the request into
  the identity's role slot (`src/context/AuthContext.jsx:113-132`), in place
  of the refreshed one. At start-up no identity is loaded, so the refresh is
  tagged with no role and storing it clears all four slots. On a client page
  with an expired client credential, the other roles' sessions are therefore
  lost, and the tab keeps the expired credential
  (`AuthContext.RefreshInsideLoadMeKeepsStaleCredential`).

## Model

| member | source | states |
|---|---|---|
| `Roles.Prefix` | src/lib/tokenStore.js:35-42 | each role's area prefix is a `/`-delimited segment |
| `Roles.Dashboard` | src/pages/Landing.jsx:20-23 | a role's dashboard lies under that role's prefix |
| `Roles.PrefixesExclusive` | src/lib/tokenStore.js:35-43 | no pathname lies under two role prefixes, so the order of the prefix tests is irrelevant |
| `Roles.RoleOfPathExact` | src/context/AuthContext.jsx:147-152 | the path role is r exactly when the pathname starts with r's prefix |
| `Roles.RoleOfPathSound` | src/context/AuthContext.jsx:157-164 | a path role is a known role whose prefix the path has; none exactly when no prefix matches |
| `Roles.RoleOfPath` | src/lib/tokenStore.js:35-43 | the path-to-role chain; `Roles.RoleOfPathExact` and `Roles.RoleOfPathSound` state what it returns |
| `Roles.DashboardInItsArea` | src/pages/Landing.jsx:20-23 | each dashboard the landing page sends to lies under its role's prefix (the prefixes tested at `src/lib/tokenStore.js:35-43`) and maps back to that role |
| `Roles.RoleOfPathExamples` | src/context/AuthContext.jsx:147-152 | `/super-admin/dashboard` and `/client/profile` map to their roles, `/` to none |
| `Cookies.ViewKeys` | src/lib/tokenStore.js:1-6 | a name is in the jar's view exactly when some cookie has it |
| `Cookies.ViewValuesOk` | src/lib/tokenStore.js:11 | no stored value contains `;` |
| `Cookies.View` | src/lib/tokenStore.js:1-6 | the name-to-value reading of the jar (first cookie of a name); `Cookies.ReadCookie` proves `getCookie` reads it |
| `Cookies.Serialize` | src/lib/tokenStore.js:2 | `document.cookie` as the jar's `name=value` entries joined by `; `; `Cookies.PrefixedSerialize` states its shape |
| `Cookies.Split` | src/lib/tokenStore.js:3 | `String.split` always yields at least one part |
| `Cookies.SplitJoin` | src/lib/tokenStore.js:3 | joining the parts of a split with the separator gives back the string |
| `Cookies.FirstField` | src/lib/tokenStore.js:4 | `split(';').shift()` is the longest `;`-free prefix |
| `Cookies.GetCookie` | src/lib/tokenStore.js:1-6 | a value read from the cookie string never contains `;` |
| `Cookies.PrefixedSerialize` | src/lib/tokenStore.js:2 | `"; " + document.cookie` is the concatenation of the `; name=value` entries |
| `Cookies.NoMatchOffSemicolon` | src/lib/tokenStore.js:3 | the separator `; name=` can only occur where a `;` is |
| `Cookies.SplitSkip` | src/lib/tokenStore.js:3 | splitting across text with no separator extends the first part |
| `Cookies.SplitAtSeparator` | src/lib/tokenStore.js:3 | a separator at the start adds an empty first part |
| `Cookies.FirstFieldStops` | src/lib/tokenStore.js:4 | the field ends at the next entry's `;` |
| `Cookies.EntryHasNoSeparator` | src/lib/tokenStore.js:3 | another cookie's entry does not contain `; name=` |
| `Cookies.SplitEntries` | src/lib/tokenStore.js:2-4 | the split yields one more part than cookies of that name; with one such cookie the second part's field is its value |
| `Cookies.GetCookieOfSerialized` | src/lib/tokenStore.js:4-5 | `getCookie` returns the first cookie's value when the name occurs once, `null` otherwise |
| `Cookies.ReadCookie` | src/lib/tokenStore.js:1-6 | on a jar with unique names, `getCookie` reads exactly the jar's view |
| `Cookies.DuplicateHidesCookie` | src/lib/tokenStore.js:4-5 | a name stored twice reads as `null` |
| `Cookies.Upsert` | src/lib/tokenStore.js:8-12 | writing a cookie updates the view at that name and only there, keeping names unique |
| `Cookies.Remove` | src/lib/tokenStore.js:14-16 | deleting a cookie removes the name from the view and only it |
| `Cookies.UpsertThenRead` | src/lib/tokenStore.js:8-12 | after a write, `getCookie` reads the new value (cut at `;`) and every other name as before |
| `Cookies.RemoveThenRead` | src/lib/tokenStore.js:14-16 | after a delete, the name reads `null` and every other name as before |
| `TokenStore.CookieNameForRole` | src/lib/tokenStore.js:18-24 | a slot name exists exactly for the four roles, and it is a well-formed slot name |
| `TokenStore.SlotsAreABijection` | src/lib/tokenStore.js:18-24 | distinct roles have distinct slots, and every slot belongs to a role |
| `TokenStore.Slots` | src/lib/tokenStore.js:51-57 | the fallback reads four slots |
| `TokenStore.FirstTruthyIsFirst` | src/lib/tokenStore.js:51-57 | the `||` chain is `null` iff every slot is empty; otherwise it is the first non-empty slot |
| `TokenStore.ViewSlots` | src/lib/tokenStore.js:51-57 | the four slots of the view |
| `TokenStore.GetAccessToken` | src/lib/tokenStore.js:26-58 | `getAccessToken` on the cookie string; `TokenStore.GetAccessTokenReadsView` ties it to `TokenStore.ReadToken` |
| `TokenStore.ReadToken` | src/lib/tokenStore.js:26-58 | the same lookup on the view; its role, page and fallback behaviour are the lemmas that follow |
| `TokenStore.PathSlot` | src/lib/tokenStore.js:35-43 | the slot of the page's area; `TokenStore.PathSlotPreferred` states its priority |
| `TokenStore.GetAccessTokenReadsView` | src/lib/tokenStore.js:26-58 | on a well-formed jar, parsing the cookie string gives the same credential as reading the view, for every role and page |
| `TokenStore.ReadTokenHasNoSemicolon` | src/lib/tokenStore.js:26-58 | a credential read from the store contains no `;` |
| `TokenStore.UnknownRoleHasNoToken` | src/lib/tokenStore.js:27-30 | a non-empty unknown role has no credential |
| `TokenStore.RoleTokenReadsSlot` | src/lib/tokenStore.js:27-30 | with a known role the credential is that role's slot |
| `TokenStore.PathSlotPreferred` | src/lib/tokenStore.js:32-48 | with no role, a non-empty slot of the page's area wins |
| `TokenStore.FallbackOrder` | src/lib/tokenStore.js:50-57 | otherwise the first non-empty slot in the order super_admin, admin, client, user, or `null` |
| `TokenStore.NoRoleFindsAnyCredential` | src/lib/tokenStore.js:32-57 | with no role the lookup is `null` exactly when all four slots are empty |
| `TokenStore.StoreIsolation` | src/lib/tokenStore.js:69-73 | storing under a role leaves every other role's slot, and every cookie that is not a slot, unchanged |
| `TokenStore.FalsyStoreClearsAll` | src/lib/tokenStore.js:61-67 | a missing credential or role removes all four slots and nothing else |
| `TokenStore.AfterSetAccessToken` | src/lib/tokenStore.js:60-74 | `setAccessToken` on the view; `TokenStore.StoreIsolation` and `TokenStore.FalsyStoreClearsAll` state its two branches |
| `TokenStore.StoredCredentialReadsBack` | src/lib/tokenStore.js:69-73 | after storing a `;`-free credential, the role reads it back and the other roles read what they read before |
| `TokenStore.CookieJar.constructor` | src/lib/tokenStore.js:1-6 | the jar starts from a well-formed cookie list |
| `TokenStore.CookieJar.SetCookie` | src/lib/tokenStore.js:8-12 | the view gains the value cut at its first `;` under the name |
| `TokenStore.CookieJar.DeleteCookie` | src/lib/tokenStore.js:14-16 | the name leaves the view |
| `TokenStore.CookieJar.ClearAllTokens` | src/lib/tokenStore.js:76-81 | the four slots leave the view, nothing else changes |
| `TokenStore.CookieJar.SetAccessToken` | src/lib/tokenStore.js:60-74 | the view becomes the store's transition function applied to the old view |
| `TokenStore.CookieJar.ClearTokenForRole` | src/lib/tokenStore.js:84-87 | exactly the role's slot leaves the view; an unknown role changes nothing |
| `Identities.RoleFromMe` | src/context/AuthContext.jsx:10-16 | the session role is never empty; it is `null` exactly for no identity or an unknown subject type; clients and users act as their subject type |
| `Identities.GuardRole` | src/components/RequireAuth.jsx:4-10 | the guard's role; `Identities.SessionAndGuardRoles` says where it differs from the session's |
| `Identities.PageRole` | src/pages/Landing.jsx:19 | the pages' role; `Identities.PageAndGuardRoles` relates it to the guard's |
| `Identities.SessionAndGuardRoles` | src/components/RequireAuth.jsx:4-10 | the guard's role differs from the session's exactly for admins without a role, where the session says `admin` |
| `Identities.PageAndGuardRoles` | src/pages/Landing.jsx:19 | the pages' role equals the guard's for known subject types; otherwise the guard has none |
| `AuthContext.AfterJoin` | src/context/AuthContext.jsx:19-29 | after a caller joins, a refresh is pending, and a pending one is unchanged |
| `AuthContext.JoinAll` | src/context/AuthContext.jsx:18-30 | the flight after a burst of callers; `AuthContext.SingleFlight` states it |
| `AuthContext.IssuedAll` | src/context/AuthContext.jsx:19-28 | the requests a burst sends; `AuthContext.SingleFlight` proves it is one |
| `AuthContext.TagsAll` | src/context/AuthContext.jsx:18-30 | one tag per caller |
| `AuthContext.JoinPending` | src/context/AuthContext.jsx:19-29 | callers joining a pending refresh send nothing and all get its tag |
| `AuthContext.SingleFlight` | src/context/AuthContext.jsx:18-30 | any burst of callers sends exactly one request, and every caller gets the first caller's role tag |
| `AuthContext.RefreshCoordinator.constructor` | src/context/AuthContext.jsx:8 | no refresh is pending at first |
| `AuthContext.RefreshCoordinator.Join` | src/context/AuthContext.jsx:18-30 | starts a refresh and counts a request only when none is pending; returns the pending tag |
| `AuthContext.RefreshCoordinator.Settle` | src/context/AuthContext.jsx:22-27 | the marker is cleared on success and on failure |
| `AuthContext.Bearer` | src/context/AuthContext.jsx:69 | the header is exactly `Bearer ` followed by the credential |
| `AuthContext.StoredRole` | src/context/AuthContext.jsx:39-46 | the role `setToken` stores under; `AuthContext.SetTokenWithRole` and `AuthContext.SetTokenWithoutRole` state both cases |
| `AuthContext.SetTokenSpec` | src/context/AuthContext.jsx:38-48 | `setToken` on the world; its properties are the `SetToken...` and `ClearingForgetsEverySlot` lemmas |
| `AuthContext.ActingRole` | src/context/AuthContext.jsx:54 | `_checkRole || activeRole || getRoleFromMe(me)`; `AuthContext.CheckRoleWins` states its priority |
| `AuthContext.CredentialFor` | src/context/AuthContext.jsx:58-65 | role slot first, then the role-less lookup; `AuthContext.NoCredentialIffStoreEmpty` states when it is empty |
| `AuthContext.RequestCredential` | src/context/AuthContext.jsx:54-65 | the credential a request carries; `AuthContext.CheckRoleWins` and `AuthContext.RequestFallsBack` state it |
| `AuthContext.RefreshesAfter` | src/context/AuthContext.jsx:82-84 | the refresh condition; `AuthContext.AtMostOneRefresh` proves a retried request never meets it |
| `AuthContext.RetryEffect` | src/context/AuthContext.jsx:88-99 | what the interceptor stores once the refresh settles; `AuthContext.Session.FinishRetry` performs it |
| `AuthContext.DuringMeCall` | src/context/AuthContext.jsx:81-100 | the world when `/auth/me` is answered, after any refresh inside it; `AuthContext.RefreshInsideLoadMeKeepsStaleCredential` uses it |
| `AuthContext.MeCallOf` | src/context/AuthContext.jsx:18-30 | how `/auth/me` went, given the network's answer, the pending refresh and the loaded identity; `AuthContext.MeCallTag` states it |
| `AuthContext.MeCallTag` | src/context/AuthContext.jsx:81-99 | a 401 inside `/auth/me` carries the pending refresh's tag, or the identity's role when none is pending; a failed refresh makes the load fail |
| `AuthContext.MeOutcome` | src/context/AuthContext.jsx:96-99 | a failed refresh reaches `loadMe` as a failure; `AuthContext.LoadMeFailureClearsAll` covers it |
| `AuthContext.LoadMeRequest` | src/context/AuthContext.jsx:113-123 | the request `loadMe` sends; `AuthContext.LoadMeSettles` says when none is sent |
| `AuthContext.LoadMeSpec` | src/context/AuthContext.jsx:110-143 | `loadMe` on the world; its properties are the `LoadMe...` lemmas |
| `AuthContext.LogoutRole` | src/context/AuthContext.jsx:157-164 | `activeRole || getRoleFromMe(me) || path role`; `AuthContext.ImpersonationKeepsIssuer` uses it |
| `AuthContext.LogoutSpec` | src/context/AuthContext.jsx:156-173 | `logout` on the world; `AuthContext.LogoutIsolation` states it |
| `AuthContext.SetTokenWithRole` | src/context/AuthContext.jsx:43-47 | with an explicit role, the credential goes to that slot only and the tab acts as that role |
| `AuthContext.SetTokenWithoutRole` | src/context/AuthContext.jsx:39-42 | without a role the identity's role is used; with no identity all slots are cleared |
| `AuthContext.ClearingForgetsEverySlot` | src/context/AuthContext.jsx:97-99 | `setToken(null, null)` removes every slot, keeps other cookies and forgets the role |
| `AuthContext.CheckRoleWins` | src/context/AuthContext.jsx:54-60 | a request pinned to a known role with a stored credential gets that credential |
| `AuthContext.RequestFallsBack` | src/context/AuthContext.jsx:62-65 | with no acting role or an empty slot, the request uses the role-less lookup |
| `AuthContext.NoCredentialIffStoreEmpty` | src/context/AuthContext.jsx:54-74 | a request goes out without a credential exactly when all four slots are empty |
| `AuthContext.AtMostOneRefresh` | src/context/AuthContext.jsx:83-86 | a request marked retried never triggers a second refresh |
| `AuthContext.LoadMeSettles` | src/context/AuthContext.jsx:113-140 | `loading` ends false on every path, refresh or not; with an empty store the session is signed out, the jar unchanged and nothing sent |
| `AuthContext.LoadMeStoresUnderIdentityRole` | src/context/AuthContext.jsx:113-133 | after a successful load the tab acts as the identity's role, and that role's slot holds the credential read before the request, even after a refresh inside it; other slots are as the request left them, and unchanged when it was answered at once |
| `AuthContext.LoadMeFailureClearsAll` | src/context/AuthContext.jsx:97-99 | a failed load, including a failed refresh inside it, signs out and clears every slot and nothing else |
| `AuthContext.RefreshInsideLoadMeKeepsStaleCredential` | src/context/AuthContext.jsx:113-132 | start-up on a client page, no identity, a 401 on `/auth/me` with no refresh pending, so the refresh is tagged with the missing identity's role, none: every other slot is cleared, and the client slot and the tab keep the credential read before the request |
| `AuthContext.LogoutIsolation` | src/context/AuthContext.jsx:157-172 | logout clears only a known resolved role's slot, nothing for a resolved role outside the four, all four when none resolves, and resets the identity, role and credential |
| `AuthContext.ImpersonationKeepsIssuer` | src/context/AuthContext.jsx:38-47 | an admin acting as a user and then logging out keeps the admin slot |
| `AuthContext.Session.constructor` | src/context/AuthContext.jsx:33-36 | the provider mounts with the role-less credential, no identity and loading set |
| `AuthContext.Session.SetToken` | src/context/AuthContext.jsx:38-48 | the new state is `setToken`'s transition function |
| `AuthContext.Session.InterceptRequest` | src/context/AuthContext.jsx:51-77 | the header carries the selected credential when there is one; the remembered credential follows it |
| `AuthContext.RefreshRequestRejoinsOwnFlight` | src/context/AuthContext.jsx:18-29 | a 401 answer to the unretried `/auth/refresh` request meets the refresh condition, and joining the pending flight sends nothing and leaves it pending |
| `AuthContext.Session.InterceptResponseError` | src/context/AuthContext.jsx:81-89 | only a 401 to an unretried request joins the refresh under the identity's role, marking the request retried; all else is rethrown with the refresh untouched |
| `AuthContext.Session.FinishRetry` | src/context/AuthContext.jsx:89-100 | the new state is the retry transition: success stores the credential under the tag's role and resends with the new header; failure clears every slot and gives up |
| `AuthContext.Session.LoadMe` | src/context/AuthContext.jsx:110-143 | the new state and the request sent are those of the load transition, with a refresh inside `/auth/me` tagged by the shared refresh; a 401 joins and settles the shared refresh, counting a request only when none was pending, and otherwise the refresh is untouched |
| `AuthContext.Session.Bootstrap` | src/context/AuthContext.jsx:145-154 | start-up is a load forced to the page area's role, with the same effect on the shared refresh |
| `AuthContext.Session.Logout` | src/context/AuthContext.jsx:156-173 | the new state is the logout transition |
| `RequireAuth.Guard` | src/components/RequireAuth.jsx:15-16 | while loading the guard waits; without a credential or an identity it sends home |
| `RequireAuth.GuardAdmits` | src/components/RequireAuth.jsx:15-25 | the area renders exactly when not loading, a credential and identity exist and every given allow-list admits the identity |
| `RequireAuth.AdminWithoutRoleDenied` | src/components/RequireAuth.jsx:6 | an admin without a role is refused by any guard listing only known roles, although the session acts for it as `admin` |
| `RequireAuth.AreaSubject` | src/App.jsx:54-90 | the super-admin and admin areas admit admin subjects |
| `RequireAuth.AreaGuard` | src/App.jsx:54-90 | the guard of each area's route; `RequireAuth.AreaAdmitsExactly` states whom it admits |
| `RequireAuth.AreaAdmitsExactly` | src/App.jsx:54-90 | an identity enters a role's area exactly when its subject type and guard role are the area's |
| `RequireAuth.AreasExclusive` | src/App.jsx:54-90 | no identity enters two areas |
| `Sidebar.SidebarArea` | src/components/SidebarLayout.jsx:11-47 | every identity is shown the links of one of the four areas |
| `Sidebar.RoleLabel` | src/components/SidebarLayout.jsx:4-9 | the label; `Sidebar.LabelMatchesLinks` proves it names the links' area |
| `Sidebar.LinksFor` | src/components/SidebarLayout.jsx:11-47 | the links; `Sidebar.LinksStayInArea` and `Sidebar.LinksDistinct` state them |
| `Sidebar.NoIdentityNoLinks` | src/components/SidebarLayout.jsx:5-12 | no identity has no links and an empty label |
| `Sidebar.LabelMatchesLinks` | src/components/SidebarLayout.jsx:4-9 | the label names the area whose links are shown |
| `Sidebar.SuperAdminLinksInArea` | src/components/SidebarLayout.jsx:13-24 | eight links under `/super-admin/`, the first the dashboard |
| `Sidebar.AdminLinksInArea` | src/components/SidebarLayout.jsx:25-34 | six links under `/admin/`, the first the dashboard |
| `Sidebar.ClientLinksInArea` | src/components/SidebarLayout.jsx:35-42 | four links under `/client/`, the first the dashboard |
| `Sidebar.UserLinksInArea` | src/components/SidebarLayout.jsx:43-46 | two links under `/user/`, the first the dashboard |
| `Sidebar.LinksStayInArea` | src/components/SidebarLayout.jsx:11-47 | each identity's links are its area's links |
| `Sidebar.LinksDistinct` | src/components/SidebarLayout.jsx:14-45 | no two links of a sidebar share a target |
| `Landing.LandingRedirectExact` | src/pages/Landing.jsx:9-25 | the page redirects exactly when not loading, signed in, in a role area and with a known page role; the target is that role's dashboard |
| `Landing.LandingRedirect` | src/pages/Landing.jsx:9-25 | the effect's navigation target; `Landing.LandingRedirectExact` states when and where |
| `Landing.LandingTargetInOwnArea` | src/pages/Landing.jsx:19-23 | the target lies in the identity's own area |
| `Landing.AdmittedIdentityNavigation` | src/pages/Landing.jsx:15-23 | an identity admitted to an area sees that area's sidebar and is sent to its dashboard |
| `AdminLogin.CheckedRole` | src/pages/auth/AdminLogin.jsx:17 | the checked role is `admin` unless the page requires another |
| `AdminLogin.AdminHome` | src/pages/auth/AdminLogin.jsx:28 | super-admins go to their dashboard, any other role to the admin dashboard |
| `AdminLogin.ExistingSession` | src/pages/auth/AdminLogin.jsx:16-33 | the existing-session check; `AdminLogin.ExistingSessionExact` states it |
| `AdminLogin.ExistingSessionExact` | src/pages/auth/AdminLogin.jsx:16-33 | no lookup exactly when the checked role's slot is empty; redirect exactly when it is not and the identity's page role is the checked role |
| `AdminLogin.LoginRole` | src/pages/auth/AdminLogin.jsx:41 | the login role is the form's admin role when that is truthy and `admin` otherwise, so never empty |
| `AdminLogin.LoginDecision` | src/pages/auth/AdminLogin.jsx:39-52 | the submission's outcome; `AdminLogin.LoginRoleMatches` states it |
| `AdminLogin.LoginRoleMatches` | src/pages/auth/AdminLogin.jsx:41-51 | a login is accepted iff it succeeded and its role is the required one (when required); otherwise the mismatch or server message is shown |
| `AdminLogin.AcceptedLoginStoresUnderRole` | src/pages/auth/AdminLogin.jsx:46-49 | an accepted login of a known role writes that slot only, and goes to the super-admin dashboard iff the role is `super_admin` |
| `AdminLogin.AdminLoginForm.constructor` | src/pages/auth/AdminLogin.jsx:12-14 | no error, not busy, checking |
| `AdminLogin.AdminLoginForm.CheckExisting` | src/pages/auth/AdminLogin.jsx:16-33 | the step is the check's decision and checking ends |
| `AdminLogin.AdminLoginForm.Submit` | src/pages/auth/AdminLogin.jsx:35-55 | accepted: store, reload, go home; refused: show the message and leave the session and the shared refresh untouched; never busy afterwards |
| `UserRegister.TrimStartShape` | src/pages/auth/UserRegister.jsx:67 | trimming the start removes a prefix made only of white space and leaves a suffix not starting with one |
| `UserRegister.TrimEndShape` | src/pages/auth/UserRegister.jsx:67 | trimming the end removes a suffix made only of white space and leaves a prefix not ending with one |
| `UserRegister.TrimShape` | src/pages/auth/UserRegister.jsx:67 | `trim` gives the piece of the input between two margins made only of white space, the piece neither starts nor ends with white space, and trimming again changes nothing |
| `UserRegister.TrimmedIsFixed` | src/pages/auth/UserRegister.jsx:67 | a string without surrounding space is its own trim |
| `UserRegister.Trim` | src/pages/auth/UserRegister.jsx:67 | `String.prototype.trim`; `UserRegister.TrimShape` states it |
| `UserRegister.ToLower` | src/pages/auth/UserRegister.jsx:42 | lower-casing keeps the length |
| `UserRegister.ToLowerAt` | src/pages/auth/UserRegister.jsx:42 | lower-casing works character by character |
| `UserRegister.ToLowerIdempotent` | src/pages/auth/UserRegister.jsx:42 | lower-casing twice is lower-casing once |
| `UserRegister.NormalizedEmail` | src/pages/auth/UserRegister.jsx:42 | `email.trim().toLowerCase()`; `UserRegister.NormalizedEmailIdempotent` states it |
| `UserRegister.NormalizedEmailIdempotent` | src/pages/auth/UserRegister.jsx:42 | normalising a normalised email changes nothing |
| `UserRegister.SanitizeMobile` | src/pages/auth/UserRegister.jsx:186 | the filtered number is no longer than the input and holds only digits, `+`, `(`, `)`, `-` |
| `UserRegister.SanitizeKeepsAllowed` | src/pages/auth/UserRegister.jsx:186 | a number of allowed characters passes unchanged |
| `UserRegister.SanitizeConcat` | src/pages/auth/UserRegister.jsx:186 | the filter distributes over concatenation, so it keeps the allowed characters in their order |
| `UserRegister.SanitizeChar` | src/pages/auth/UserRegister.jsx:186 | one character is kept iff it is a digit, `+`, `(`, `)` or `-` |
| `UserRegister.SanitizeIdempotent` | src/pages/auth/UserRegister.jsx:186 | the filter is idempotent and its output never contains `@` |
| `UserRegister.AcceptedOtpIsNumeric` | src/pages/auth/UserRegister.jsx:54-76 | an accepted code is the trimmed entry, at least four characters, all digits, for a present identifier without `@` |
| `UserRegister.FirstFailureReported` | src/pages/auth/UserRegister.jsx:54-76 | the first failing check's message is the one reported, and the code is accepted iff every check passes |
| `UserRegister.FilteredMobileIsNotEmail` | src/pages/auth/UserRegister.jsx:63-66 | a number typed through the filter never fails the `@` check |
| `UserRegister.ValidateOtp` | src/pages/auth/UserRegister.jsx:54-76 | the ordered checks; `UserRegister.FirstFailureReported` and `UserRegister.AcceptedOtpIsNumeric` state them |
| `UserRegister.RequestPayload` | src/pages/auth/UserRegister.jsx:41-43 | the request payload; `UserRegister.VerifyMatchesRequest` relates it to the verify payload |
| `UserRegister.VerifyPayload` | src/pages/auth/UserRegister.jsx:78-81 | the verify payload; `UserRegister.VerifyMatchesRequest` states it |
| `UserRegister.VerifyMatchesRequest` | src/pages/auth/UserRegister.jsx:41-43 | a code is verified for the same normalised identifier it was requested for; only the request carries the delivery method |
| `UserRegister.CanSubmit` | src/pages/auth/UserRegister.jsx:277 | the submit button's enabling; `UserRegister.SubmitNeedsBothTokens` states what it needs |
| `UserRegister.AfterVerify` | src/pages/auth/UserRegister.jsx:77-89 | one attempt's effect on the tokens; `UserRegister.RegistrationForm.VerifyOtp` performs it |
| `UserRegister.AfterAttempts` | src/pages/auth/UserRegister.jsx:52-90 | the tokens after a history of attempts; `UserRegister.AfterAttemptsSnoc` ties it to successive calls |
| `UserRegister.AfterAttemptsSnoc` | src/pages/auth/UserRegister.jsx:52-90 | one more verify call extends the history by one attempt |
| `UserRegister.TokensComeFromSuccess` | src/pages/auth/UserRegister.jsx:84-85 | a token held after a history was held before or came from a successful attempt of its kind |
| `UserRegister.RegistrationForm.constructor` | src/pages/auth/UserRegister.jsx:11-36 | empty fields, SMS delivery, no tokens, no error; submit is disabled |
| `UserRegister.RegistrationForm.Prefill` | src/pages/auth/UserRegister.jsx:27-31 | the navigation state fills the email and its verified token; only the email token changes |
| `UserRegister.RegistrationForm.SetMobile` | src/pages/auth/UserRegister.jsx:185-188 | the field holds the filtered input, nothing else changes |
| `UserRegister.RegistrationForm.RequestOtp` | src/pages/auth/UserRegister.jsx:38-50 | sends the normalised payload; a failure shows the server message or `Failed to send OTP` |
| `UserRegister.RegistrationForm.VerifyOtp` | src/pages/auth/UserRegister.jsx:52-90 | a failing check shows its message and sends nothing; otherwise the payload is sent; the tokens become the attempt's transition of the old ones |
| `UserRegister.SubmitNeedsBothTokens` | src/pages/auth/UserRegister.jsx:120-121 | a form that can submit had a mobile code and (unless the email came verified) an email code each pass the checks and come back with a token |

## Left out

- Cookie expiry, the `path`/`SameSite` attributes, and the browser's own
  handling of them (`src/lib/tokenStore.js:8-16`). Only whether a slot is
  present, and its value, is modelled.
- Cookie order and whitespace. The browser's order for `document.cookie` is
  fixed as the jar's order. A new cookie goes to the end; an existing one is
  updated in place.
- The browser's trimming of names and values, and other characters in names.
  The model requires names without `;` or `=`; the four slot names meet this.
- `TokenStore.StoredCredentialReadsBack`: it requires the credential to
  contain no `;`. A value with a `;` is cut there when stored, and the setter
  states exactly that.
- Asynchronous interleaving: React state updates apply immediately. The
  stale closures of `useCallback`/`useEffect`, and the interceptors' ordering
  around re-registration, are not modelled. Each operation runs to completion
  with the state it finds.
- `AuthContext.Session.FinishRetry`: the resubmitted request goes through the
  request interceptor again, which may replace the header. The model returns
  the request; it does not re-run the interceptor.
- A `loadMe` answer that arrives after a `logout` is still adopted, since the
  code does not check for it. The model runs each operation to completion, so
  this interleaving is not modelled.
- `AdminLogin.AdminLoginForm.CheckExisting`: its `/auth/me` request also passes
  through the response interceptor. A refresh triggered there stores a
  credential in the session. The model treats the check as leaving the
  session untouched.
- `AuthContext.RefreshCoordinator.Settle`: `/auth/refresh` is itself sent
  through `api`, so a 401 answer to it re-enters the response interceptor
  (src/context/AuthContext.jsx:20-21, 81-89), which awaits the pending
  refresh, that is, its own outcome. That promise never settles,
  `refreshPromise` stays set and every later refresh joins it. The model
  treats a failed refresh as an outcome that always arrives and settles.
  `AuthContext.RefreshRequestRejoinsOwnFlight` states the first step of
  this path.
- `AuthContext.LoadMeSettles`: for the same reason, a `loadMe` or start-up
  whose refresh is answered 401 never finishes and `loading` stays true. The
  lemma covers only refreshes that settle.
- `AuthContext.Session.InterceptResponseError`: it models the handler for
  application requests. The handler's re-entry for the refresh request's own
  failure, which waits forever, is not modelled.
- `AuthContext.TokenText`: a refresh answer whose `accessToken` is JSON
  `null` gives the header `Bearer null` in the code. `Option` does not tell
  `null` from a missing field, so the model writes `Bearer undefined` for
  both.
- HTTP transport, `api` and the endpoints. Their answers are parameters.
- `useAuth` failing outside the provider, hook wiring, rendering and
  navigation calls. Navigation targets are returned as values.
- `UserRegister.ToLower`: it lower-cases ASCII letters only. JavaScript
  `toLowerCase` also maps other Unicode letters.
- OTP length is measured in Unicode scalar values, not UTF-16 units. The two
  agree on any accepted code, which is all digits.
- The registration submit (`onRegister`) and the dev-OTP display. These are
  network calls and display only.
- The other login and registration pages, the list pages and their
  "Login as" handlers, the profile and create forms, and the logo upload.
  The handlers only call `setToken(token, role)`, which is covered by
  `AuthContext.SetTokenWithRole` and `AuthContext.ImpersonationKeepsIssuer`.
