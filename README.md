# Utility dashboard: a verified model of its decision rules

This project models the logic of a utility-management dashboard and proves properties of
it. The dashboard is a React single-page client over a FastAPI + SQLite backend. What the
model covers:

- the client's request builder: headers, bearer token, error messages, form and query
  encoding;
- its session store: `checkAuthStatus`, `login`, `logout`;
- the route guard and the rule that hides the header and sidebar;
- the admin management page: validation, payload and name mapping, the search/role
  filter, and the page state its handlers change;
- the sign-in page, the user lookup page with its Quick Stats, and the dashboard data hook;
- the backend's account handlers: token subject, register, login, profile and password
  update, lookup by number;
- the backend's scripts, which treat the user-role-permission table as a set of triples:
  init_roles_permissions.py seeds roles and permissions, add_admin.py seeds accounts and
  their grants, and print_user_permissions.py reassigns one user's triples and reports them.

Backend calls, `fetch`, `window.confirm`, toasts and browser storage are not performed.
Each handler is given what they would have produced:

- a value, or the message of the error thrown;
- whether a confirmation was accepted;
- the stored token.

Handlers record the requests they issue and the notifications they raise. The database is
a `Database` object:

- every table is a sequence of rows in insertion order;
- the user-role-permission table is a set of `Grant(userId, roleId, permissionId)` values.

A state that the source changes in place (a React component's state, the session store,
the database session) is a class whose methods name what they modify. Pure decisions are
functions. Loops in the scripts are loops with invariants. The modules follow the source
files:

| module | file | source |
|---|---|---|
| `Common` | common.dfy | JavaScript/Python truthiness, `\|\|` on strings, ASCII `toLowerCase`, `includes`, number rendering |
| `FormEncoding` | form_encoding.dfy | `URLSearchParams.toString()` on UTF-8, with a parser and a round-trip proof |
| `Api` | api.dfy | project/src/utils/api.ts |
| `Session` | auth.dfy | project/src/hooks/useAuth.tsx |
| `Routing` | routing.dfy | project/src/App.tsx |
| `AdminManagement` | admin_management.dfy | project/src/admin/src/components/AdminManagement.tsx |
| `LoginScreen` | login_page.dfy | project/src/components/Login.tsx |
| `UsersLookup` | users_page.dfy | project/src/components/UsersPage.tsx |
| `DashboardData` | dashboard.dfy | project/src/hooks/useDashboard.ts |
| `Db` | db.dfy | project/backend/models.py, and `select(...).first()` lookups |
| `Backend` | backend.dfy | project/backend/main.py |
| `AddAdmin` | add_admin.dfy | project/backend/add_admin.py |
| `InitRoles` | init_roles.dfy | project/backend/init_roles_permissions.py |
| `UserPermissions` | print_user_permissions.dfy | project/backend/print_user_permissions.py |

## Model

| member | source | states |
|---|---|---|
| Common.Lower | project/src/admin/src/components/AdminManagement.tsx:189-190 | `toLowerCase` keeps the length and lower-cases each character |
| Common.ContainsAt | project/src/admin/src/components/AdminManagement.tsx:189-190 | the `includes` scan finds the needle exactly when it occurs at some position |
| Common.ContainsEmpty | project/src/admin/src/components/AdminManagement.tsx:189 | every string includes the empty search term |
| Common.MissingFirstChar | project/src/components/Login.tsx:24 | a needle whose first character is absent from the text is not included in it |
| Common.NatToString | project/src/utils/api.ts:32 | the rendering of a status is a non-empty digit string with no leading zero |
| Common.NatToStringRoundTrip | project/src/utils/api.ts:32 | reading the rendering back gives the number |
| Common.NatToStringInjective | project/src/utils/api.ts:32 | different numbers render differently |
| FormEncoding.Utf8 | project/src/utils/api.ts:53-59 | a character is encoded as one to four UTF-8 bytes |
| FormEncoding.DecodeUtf8RoundTrip | project/src/utils/api.ts:53-59 | strict UTF-8 decoding of the encoded bytes gives back the string |
| FormEncoding.UnescapeRoundTrip | project/src/utils/api.ts:53-59 | `+`/`%XX` escaping of bytes is undone by unescaping |
| FormEncoding.ComponentRoundTrip | project/src/utils/api.ts:53-59 | an encoded name or value decodes to the original string |
| FormEncoding.EscapeBytesNoDelimiter | project/src/utils/api.ts:53-59 | an encoded component contains neither `&` nor `=` |
| FormEncoding.SerializeRoundTrip | project/src/utils/api.ts:53-59 | parsing the serialized pairs gives the same pairs in the same order |
| Api.DefaultHeaders | project/src/utils/api.ts:15-21 | JSON content type; `Authorization` is present iff `auth` and a non-empty token, and is then `Bearer <token>`; no other key |
| Api.BuildConfig | project/src/utils/api.ts:13-26 | URL is base + endpoint; given `options.headers` replace the defaults entirely; method and body come from the options |
| Api.Outcome | project/src/utils/api.ts:28-39 | a transport failure rethrows its message; a non-OK reply fails with the `detail` if present, else `HTTP error! status: <status>`; success iff the reply is OK with a JSON body, whose value is returned |
| Api.NotOkNeverSucceeds | project/src/utils/api.ts:30-33 | a non-OK reply never yields a value, whatever its body |
| Api.HttpErrorMessageNamesStatus | project/src/utils/api.ts:32 | the fallback message determines the status |
| Api.LoginFormParses | project/src/utils/api.ts:53-55 | the login body reads back as exactly `username`, then `password` |
| Api.LoginRequest | project/src/utils/api.ts:51-61 | POST to /auth/login with only the form content type, no `Authorization`, and the form body |
| Api.ExplicitHeadersDropToken | project/src/utils/api.ts:23-26 | with `auth` set the defaults carry the token, but explicit headers drop it |
| Api.AuthedGet | project/src/utils/api.ts:63-65 | a GET of base + endpoint with no body and the default headers of an authenticated call (used for /users/me and /me/permissions) |
| Api.UnauthenticatedBindingsCarryNoToken | project/src/utils/api.ts:87-95 | a binding that does not pass `auth` never sends a token |
| Api.AdminQuery | project/src/utils/api.ts:167-175 | empty iff neither role nor search is present; otherwise `?` + the serialized parameters |
| Api.AdminQueryParses | project/src/utils/api.ts:169-173 | a non-empty query starts with `?` and reads back as exactly the parameters |
| Api.AdminParamsOrder | project/src/utils/api.ts:171-172 | `role` comes before `search`; an absent or empty filter contributes nothing |
| Api.AdminListRequest | project/src/utils/api.ts:175 | the list URL is base + `/admin/` + query, sent with the token |
| Api.AdminListUnfiltered | project/src/utils/api.ts:167-175 | the list is fetched from `/admin/` with no query exactly when neither filter is present |
| Session.UseAuth | project/src/hooks/useAuth.tsx:15-21 | outside a provider it fails with the fixed message; inside it returns the context value |
| Session.SignedInUser | project/src/hooks/useAuth.tsx:42-48 | the signed-in user carries the fetched lists, or empty ones when their fetch failed |
| Session.ProfileCalls | project/src/hooks/useAuth.tsx:41-44 | the profile request, then the permissions request only when the profile was fetched |
| Session.LoginFailure | project/src/hooks/useAuth.tsx:74-76 | `login` rethrows the token error first, else the profile error, else nothing |
| Session.AuthProvider.Value | project/src/hooks/useAuth.tsx:89-98 | `isAuthenticated` holds iff the user is non-null |
| Session.AuthProvider.constructor | project/src/hooks/useAuth.tsx:28-31 | no user, empty lists, loading, the stored token |
| Session.AuthProvider.SetSignedIn | project/src/hooks/useAuth.tsx:46-48 | user and lists are set together and stay consistent |
| Session.AuthProvider.CheckAuthStatus | project/src/hooks/useAuth.tsx:37-59 | no token: no call and nothing changes; profile failure: token removed and user cleared, nothing thrown; success: user with its lists (empty if the permissions fetch failed); loading ends false |
| Session.AuthProvider.LoadProfile | project/src/hooks/useAuth.tsx:66-73 | fetches the profile with the stored token, then the permissions with a fallback to none |
| Session.AuthProvider.RequestToken | project/src/hooks/useAuth.tsx:64-65 | posts the credentials and stores the issued token |
| Session.AuthProvider.Login | project/src/hooks/useAuth.tsx:61-80 | the token is stored before the profile is fetched and stays stored when that fails; errors are rethrown; loading ends false |
| Session.AuthProvider.Logout | project/src/hooks/useAuth.tsx:82-87 | removes the token, clears the user and the lists, makes no call |
| Session.ProfileFetchUsesNewToken | project/src/hooks/useAuth.tsx:65-66 | the profile request after sign-in carries the just-stored token |
| Routing.PrivateRoute | project/src/App.tsx:11-15 | loading wins; otherwise it renders iff authenticated and redirects otherwise |
| Routing.HideLayout | project/src/App.tsx:17-21 | the frame is hidden iff unauthenticated or the pathname is exactly /login or /register |
| Routing.TrimTrailingSlashes | project/src/App.tsx:39-43 | the path's longest prefix not ending in '/', with only slashes cut off |
| Routing.NormalizeFixes | project/src/App.tsx:39-43 | a path without capital letters or a trailing slash is its own normalised spelling |
| Routing.LoginPathIsNormal | project/src/App.tsx:39 | '/login' is in normalised spelling |
| Routing.GuardedPathsAreNormal | project/src/App.tsx:41-42 | '/dashboard' and '/users' are in normalised spelling |
| Routing.RouteVariants | project/src/App.tsx:39-42 | '/Dashboard', '/users/', '/Register' and '/LOGIN/' are matched to the routes of those names, as the case-insensitive, trailing-slash-tolerant router matches them |
| Routing.Route | project/src/App.tsx:38-44 | on a normalised path: /login and /register are public, /dashboard and /users guarded, any other path redirects to /login |
| Routing.Settle | project/src/App.tsx:38-44 | after one redirect the content is never another redirect |
| Routing.GuardedPageNeedsSession | project/src/App.tsx:41-42 | the dashboard or users page is shown only when signed in and not loading, and exactly on the spellings of its own path |
| Routing.LoadingWins | project/src/App.tsx:13 | while loading, both guarded paths show the placeholder regardless of authentication |
| Routing.UnknownPathRedirects | project/src/App.tsx:43 | a path that is no spelling of a listed route redirects to /login and settles on the login page |
| Routing.VisitorsEndOnPublicPage | project/src/App.tsx:39-43 | a signed-out visitor ends on the register page if any spelling of /register was requested, else on the login page |
| Routing.FrameAroundLoginVariant | project/src/App.tsx:20-21 | as written, a signed-in user at '/login/' gets the login page inside the header and sidebar |
| Routing.HideLayoutOnRoute | project/src/App.tsx:20 | the frame rule compared on the spelling the route table uses |
| Routing.FrameOnlyAroundGuardedPages | project/src/App.tsx:20-21 | with that rule the frame is never drawn around the login or register page, and always around a guarded page a signed-in user sees |
| AdminManagement.ValidateForm | project/src/admin/src/components/AdminManagement.tsx:105-111 | name, email, password (create only), role are checked in that order; the first empty one decides the message; null iff none is empty |
| AdminManagement.EditingIgnoresPassword | project/src/admin/src/components/AdminManagement.tsx:108 | when editing, the password (even empty) does not affect validation |
| AdminManagement.ToPayload | project/src/admin/src/components/AdminManagement.tsx:124-125 | `username == full_name == name`; email, password and role unchanged; no `name` field |
| AdminManagement.DisplayName | project/src/admin/src/components/AdminManagement.tsx:90-94 | `full_name` if non-empty, else `username` |
| AdminManagement.MapAdmins | project/src/admin/src/components/AdminManagement.tsx:90-94 | one page admin per fetched admin, position by position |
| AdminManagement.PayloadNameRoundTrip | project/src/admin/src/components/AdminManagement.tsx:90-94 | a record saved from a payload is listed under the typed name |
| AdminManagement.FilterAdmins | project/src/admin/src/components/AdminManagement.tsx:187-193 | an order-preserving subsequence holding every matching admin exactly as often as the list does and no other: a match has non-empty name and email, a case-insensitive name or email match, and the role filter satisfied |
| AdminManagement.EmptyFilterKeepsNamed | project/src/admin/src/components/AdminManagement.tsx:188-191 | with no search and role 'All', only admins lacking a name or email are dropped |
| AdminManagement.EditForm | project/src/admin/src/components/AdminManagement.tsx:146-151 | the edit form has an empty password |
| AdminManagement.EditFormValidates | project/src/admin/src/components/AdminManagement.tsx:105-151 | the edit form validates iff the admin has name, email and role |
| AdminManagement.SaveCall | project/src/admin/src/components/AdminManagement.tsx:126-132 | an update iff an admin is being edited, then of that admin's id; a create otherwise; the payload either way |
| AdminManagement.AdminPage.constructor | project/src/admin/src/components/AdminManagement.tsx:43-58 | the initial page state |
| AdminManagement.AdminPage.FilteredAdmins | project/src/admin/src/components/AdminManagement.tsx:187-193 | the shown rows are an ordered subsequence of the list holding each matching admin as often as the list does and nothing else |
| AdminManagement.AdminPage.FetchAdminsAndMetrics | project/src/admin/src/components/AdminManagement.tsx:83-103 | both calls; on success the mapped list and metrics; on failure empty list, zero metrics and an error toast; loading ends false; nothing else changes |
| AdminManagement.AdminPage.Save | project/src/admin/src/components/AdminManagement.tsx:122-141 | one save call with the payload; success re-fetches, closes the modal and resets the form; failure keeps all of it and toasts |
| AdminManagement.AdminPage.HandleSubmit | project/src/admin/src/components/AdminManagement.tsx:113-142 | a validation failure sets the error and stops before any call or loading change; otherwise the whole state `Save` leaves, for both outcomes of the save call |
| AdminManagement.AdminPage.HandleEdit | project/src/admin/src/components/AdminManagement.tsx:144-153 | opens the modal on the admin with an empty password; nothing else changes |
| AdminManagement.AdminPage.CloseModal | project/src/admin/src/components/AdminManagement.tsx:134-136 | closes the modal, clears the edited admin and resets the form |
| AdminManagement.AdminPage.Remove | project/src/admin/src/components/AdminManagement.tsx:161-171 | the delete call, then a re-fetch on success; `deletingId` ends null, loading false |
| AdminManagement.AdminPage.HandleDelete | project/src/admin/src/components/AdminManagement.tsx:155-172 | a declined confirmation makes no call and leaves list and loading as they were; a confirmed one leaves the calls, toasts, list and metrics `Remove` leaves, for both outcomes; `deletingId` ends null |
| AdminManagement.AdminPage.ToggleStatus | project/src/admin/src/components/AdminManagement.tsx:174-185 | one status call, then a re-fetch on success; loading ends false |
| LoginScreen.LoginErrorMessage | project/src/components/Login.tsx:24-28 | a message including 'Failed to fetch' maps to the unreachable-server text; otherwise the message, or 'Login failed' if empty; never empty |
| LoginScreen.BannerForBackendErrors | project/src/components/Login.tsx:24-28 | a fetch rejected with a message including 'Failed to fetch' shows the unreachable text; the backend's credential error is shown as is |
| LoginScreen.LoginPage.constructor | project/src/components/Login.tsx:8-10 | empty form, no error, not loading |
| LoginScreen.LoginPage.BeginSubmit | project/src/components/Login.tsx:18-19 | loading set and error cleared |
| LoginScreen.LoginPage.FinishSubmit | project/src/components/Login.tsx:21-31 | success navigates to /dashboard; failure sets the mapped error and does not navigate; loading ends false |
| LoginScreen.LoginPage.HandleSubmit | project/src/components/Login.tsx:16-32 | signs in with the form fields (the login request comes first); navigates iff every step of `login` succeeded, otherwise shows the mapped message |
| UsersLookup.PaidBills | project/src/components/UsersPage.tsx:77 | at most the number of entries; 0 iff none is paid; all iff all are paid |
| UsersLookup.LastPayment | project/src/components/UsersPage.tsx:78 | '-' with no entry, else the last entry's month (or '-' if it is empty) |
| UsersLookup.UsageTotalAppend | project/src/components/UsersPage.tsx:76 | the usage sum over two stretches is the sum of their sums |
| UsersLookup.AlertTotalAppend | project/src/components/UsersPage.tsx:79 | the alert sum over two stretches is the sum of their sums |
| UsersLookup.UsageTotalBounds | project/src/components/UsersPage.tsx:76 | non-negative readings give a non-negative total bounding each reading |
| UsersLookup.AppendPayment | project/src/components/UsersPage.tsx:77-78 | an appended payment becomes the last payment and counts iff paid |
| UsersLookup.UsersPage.constructor | project/src/components/UsersPage.tsx:18-21 | empty search, no record, not loading, no error |
| UsersLookup.UsersPage.SetSearch | project/src/components/UsersPage.tsx:46 | the input sets the search text |
| UsersLookup.UsersPage.BeginLookup | project/src/components/UsersPage.tsx:24-26 | loading set, error and record cleared, one lookup of the typed search text |
| UsersLookup.UsersPage.FinishLookup | project/src/components/UsersPage.tsx:28-35 | success stores the record; failure leaves no record and the fixed message; loading ends false |
| UsersLookup.UsersPage.HandleGetUser | project/src/components/UsersPage.tsx:23-36 | one lookup; success: record and no error; failure: no record and 'No user found for that number.' |
| DashboardData.FailureMessage | project/src/hooks/useDashboard.ts:28 | an Error's own message, otherwise the fallback text |
| DashboardData.Dashboard.constructor | project/src/hooks/useDashboard.ts:6-9 | no data, loading, no error |
| DashboardData.Dashboard.BeginFetch | project/src/hooks/useDashboard.ts:17-18 | loading set and error cleared before the calls; data kept |
| DashboardData.Dashboard.FinishFetch | project/src/hooks/useDashboard.ts:20-32 | both values set together on success only; failure keeps them and sets the message; loading ends false |
| DashboardData.Dashboard.FetchDashboardData | project/src/hooks/useDashboard.ts:15-37 | the whole fetch (and `refreshData`), keeping stats and charts both present or both absent |
| DashboardData.RefreshKeepsLastFigures | project/src/hooks/useDashboard.ts:20-28 | a failed refresh after a successful one keeps the earlier figures beside the error |
| Db.FirstIndex | project/backend/main.py:47 | `.first()`: the earliest matching row, none iff no row matches |
| Db.First | project/backend/main.py:47 | the first matching row, if any |
| Db.FirstAfterAppend | project/backend/add_admin.py:17 | adding a row does not change an existing first match; otherwise the new row is found iff it matches |
| Db.FirstIndexAfterGrowth | project/backend/add_admin.py:71 | rows appended after a match do not change which row is found first |
| Db.NextId | project/backend/models.py:6 | a new id is positive and larger than every id in use |
| Db.Database.constructor | project/backend/models.py:5-36 | the session over the given tables |
| Backend.CurrentUserIndex | project/backend/main.py:40-49 | none iff the token is invalid, has no subject, or names no account; otherwise an account with that username |
| Backend.GetCurrentUser | project/backend/main.py:34-50 | 401 in every failing case: 'Not authenticated' when no bearer token is presented, 'Could not validate credentials' otherwise; otherwise the account the subject names |
| Backend.Register | project/backend/main.py:52-69 | 400 iff some account has the username or the email, with no change; otherwise exactly one row with the next id is added; unique usernames, emails and ids are preserved |
| Backend.Login | project/backend/main.py:71-77 | succeeds iff the first account with the username verifies the password; the token's subject is that username and it lasts 60 minutes; otherwise 400 'Incorrect username or password' |
| Backend.LoginHidesWhichCheckFailed | project/backend/main.py:74-75 | an unknown username and a wrong password are answered identically |
| Backend.IssuedTokenAuthenticates | project/backend/main.py:40-77 | an issued token, decoded, resolves to the account that signed in |
| Backend.UpdateProfile | project/backend/main.py:83-91 | only full name, bio and avatar of the token's account change; a token that does not resolve gets the same 401 as `get_current_user` and changes nothing |
| Backend.UpdatePassword | project/backend/main.py:93-98 | only the password hash of the token's account changes; a token that does not resolve gets the same 401 and changes nothing |
| Backend.ProfileUpdateKeepsIdentity | project/backend/main.py:85-87 | id, username, email, hash, creation time and status survive a profile update |
| Backend.HistoryColumn | project/backend/main.py:114-117 | an empty column is returned as `[]`, otherwise decoded |
| Backend.GetUserByNumber | project/backend/main.py:100-118 | 404 'User not found' iff no record has the number; otherwise built from the first such record |
| Backend.RecordOf | project/backend/main.py:105-118 | scalar fields copied; each history `[]` exactly when its column is empty |
| AddAdmin.GrantsFor | project/backend/add_admin.py:30-41 | one triple per permission row for the user and role, and nothing else |
| AddAdmin.WithoutPair | project/backend/add_admin.py:93 | removes exactly the user's triples for that role |
| AddAdmin.GetOrCreateUser | project/backend/add_admin.py:8-22 | an existing account is reused with no change; otherwise an 'Active' one is added; afterwards the lookup finds it, so a rerun adds nothing |
| AddAdmin.InsertMissingGrants | project/backend/add_admin.py:30-41 | the insert-if-absent loop adds exactly the missing triples |
| AddAdmin.GrantAllIfAbsent | project/backend/add_admin.py:24-43 | afterwards every permission has its triple; a rerun changes nothing |
| AddAdmin.ReassignRole | project/backend/add_admin.py:91-97 | the (user, role) triples become exactly one per permission; every other triple is untouched |
| AddAdmin.AssignAccount | project/backend/add_admin.py:70-99 | a missing role skips the user with no triple added or deleted; otherwise the role is reassigned |
| AddAdmin.GrowthKeepsAccounts | project/backend/add_admin.py:70-85 | an account present before rows are appended is still present |
| AddAdmin.PairOf | project/backend/add_admin.py:71-90 | a step has a (user, role) pair iff the account exists and a role has the name |
| AddAdmin.PairOfAfterGrowth | project/backend/add_admin.py:71-85 | accounts appended later do not change the pair of an account already present |
| AddAdmin.StepPairsMembers | project/backend/add_admin.py:70-99 | the loop works on exactly the pairs of the listed accounts |
| AddAdmin.AccountStepsMembers | project/backend/add_admin.py:70-99 | after the loop each pair it worked on holds exactly one triple per permission, however often it came up; every other triple is as it was |
| AddAdmin.AccountStepsAfterGrowth | project/backend/add_admin.py:70-85 | the loop's outcome does not depend on accounts appended after the ones it names |
| AddAdmin.RunGrantsMembers | project/backend/add_admin.py:24-99 | the listed accounts' pairs hold exactly one triple per permission; 'abhi' holds every Admin triple (with any it had); every other triple is as it was |
| AddAdmin.RunGrantsIdempotent | project/backend/add_admin.py:24-99 | on the same accounts, roles and permissions a second run leaves the table as the first left it |
| AddAdmin.SeedAdmin | project/backend/add_admin.py:6-43 | 'abhi' exists afterwards; an existing 'abhi' means no account is added; its missing Admin triples are added when the Admin role exists and nothing else changes |
| AddAdmin.AssignListed | project/backend/add_admin.py:70-99 | one loop iteration: the account exists afterwards, earlier ones stay, and the table advances by that account's step |
| AddAdmin.SeedAccounts | project/backend/add_admin.py:45-99 | every listed account exists afterwards; none is added if all existed; the table is the outcome of the account steps in list order |
| AddAdmin.Run | project/backend/add_admin.py:1-99 | the script only appends accounts, leaves all four named accounts in place, adds none on a rerun, and leaves the table `RunGrants` describes, so a rerun changes nothing |
| InitRoles.MappingIsDeclared | project/backend/init_roles_permissions.py:6-21 | the mapping's roles are exactly the declared roles and each lists only declared views |
| InitRoles.GetOrCreateRole | project/backend/init_roles_permissions.py:28-34 | a role row is added only when the name is absent; unique names are preserved |
| InitRoles.GetOrCreatePermission | project/backend/init_roles_permissions.py:38-44 | the same for a view name |
| InitRoles.CreateRoles | project/backend/init_roles_permissions.py:26-34 | every listed name maps to a row of that name; the appended rows are exactly for listed names that had no row, one each; no row is added when all existed |
| InitRoles.CreatePermissions | project/backend/init_roles_permissions.py:36-44 | every listed view maps to a row of that view; the appended rows are exactly for listed views that had no row, one each; no row is added when all existed |
| InitRoles.Seed | project/backend/init_roles_permissions.py:23-53 | all listed roles and views exist afterwards; the only rows appended are one for each listed role or view that had none; a second run changes nothing; no user-role-permission row or account is touched |
| UserPermissions.Lookup | project/backend/print_user_permissions.py:27 | dictionary indexing: the value, or a KeyError naming the key |
| UserPermissions.WithoutUser | project/backend/print_user_permissions.py:19-22 | removes exactly the user's triples |
| UserPermissions.Resolve | project/backend/print_user_permissions.py:29-30 | a view name resolves iff some permission row has it, to that row's id |
| UserPermissions.ResolvedGrantsMembers | project/backend/print_user_permissions.py:28-32 | a triple is added iff it carries the user, the Super-Admin role and a permission some listed name resolves to |
| UserPermissions.UserRoleIds | project/backend/print_user_permissions.py:35-36 | the distinct non-zero role ids of the user's triples |
| UserPermissions.UserPermissionIds | project/backend/print_user_permissions.py:35-37 | the distinct non-zero permission ids of the user's triples |
| UserPermissions.RoleNamesOf | project/backend/print_user_permissions.py:38-40 | names of the roles with those ids; none for no ids |
| UserPermissions.ViewNamesOf | project/backend/print_user_permissions.py:41-43 | view names of the permissions with those ids; none for no ids |
| UserPermissions.Summary | project/backend/print_user_permissions.py:35-45 | the report carries those id sets and the role and view names of exactly those ids |
| UserPermissions.DeleteUserGrants | project/backend/print_user_permissions.py:19-22 | the delete loop removes exactly the user's triples |
| UserPermissions.AddResolved | project/backend/print_user_permissions.py:28-33 | the add loop adds exactly the resolved triples |
| UserPermissions.Reassign | project/backend/print_user_permissions.py:7-45 | a missing user or role changes nothing; otherwise all of the user's triples are removed before the table is read, then either the KeyError or the resolved triples and the report |
| UserPermissions.SuperAdminNotInTable | project/backend/init_roles_permissions.py:17-21 | the shared table has no 'Super-Admin' entry |
| UserPermissions.RunAsWritten | project/backend/print_user_permissions.py:14-27 | with the user and the role present, the script ends in a KeyError after deleting all of the user's triples |
| UserPermissions.RunCorrected | project/backend/print_user_permissions.py:27-33 | with a Super-Admin entry the user ends with exactly one Super-Admin triple per resolving view and no other triple; other users are untouched; only that role id is reported; without the user or the role nothing changes |

## Left out

- Rendering, styling, icons, modals, charts, tables and the other presentation-only components.
- Analytics.tsx, which is mock data behind timers.
- The HTTP transport and JSON parsing. They become the `Response`, `Result` and `Option` values handlers are given.
- `Promise.all` concurrency. A joint fetch is one outcome that succeeds or fails.
- `toast`, `window.confirm`, `console` output and printing. Toasts are logged; the rest is omitted.
- Api.Outcome: a reply's `detail` is modelled as its string rendering. FastAPI's 422 `detail` is a list of objects, which `new Error(...)` renders as "[object Object]", and an empty list (truthy in JavaScript) gives the message "".
- Browser storage as a store. The token slot is a field of the session store.
- JWT signing and expiry checking, and password hashing and verification. These are the `Decoded` outcome, the claims of an issued token, a verify function parameter and given hashes.
- SQLModel/SQLite sessions, commits, autoflush and engine setup. The tables are sequences and a set.
- Database constraint violations, such as an insert that clashes with a unique column in the seeding scripts.
- Multiplicity of duplicate user-role-permission rows, since the table is a set.
- The User columns the core never reads or writes (region, segment, phase, the history columns). Registration leaves them null.
- `created_at` and other clock values. They are parameters.
- database.py seeding (random), promote_to_admin.py, print_users.py, vite.config.ts and the schemas beyond their field lists.
- The role and permission tables: models.py is not where they are declared, so their columns are taken from how the scripts use them (`id`/`name`, `id`/`view_name`, and `user_id`/`role_id`/`permission_id`).
- The admin page's mount effect, which repeats `fetchAdminsAndMetrics` and is covered by that method. Its `showPassword` toggle and the field setters are also left out.
- Common.Lower: JavaScript `toLowerCase` is modelled on ASCII letters only, not full Unicode case mapping.
- FormEncoding.Serialize: characters are Unicode scalar values, so a lone surrogate (which `URLSearchParams` replaces by U+FFFD) cannot occur.
- AdminManagement.FilterAdmins: the `!admin` guard against null list entries is not modelled, since a list entry is never null here.
- UsersLookup.UsageTotalBounds and the other stats: readings are integers; fractional kWh values are not modelled.
- Backend.GetUserByNumber: `json.loads` is not performed. A history column is returned as its text tagged as decoded, and malformed JSON (a server error) is not modelled.
- The JSON body of register and update requests, and the backend's admin, metric, permission and dashboard endpoints, which are not part of this model.
- Routing.Route: the router's percent-decoding of the pathname before matching is not modelled.
- Session.AuthProvider.CheckAuthStatus, Session.AuthProvider.Login and the page handlers each run to completion with nothing in between. React interleaving is not modelled: a `login` submitted while `checkAuthStatus` still awaits the profile of an expired token would have that token removed and its user cleared when the older call fails.
- Backend.Register: the 422 FastAPI answers before the handler runs, for a body whose `email` is not a valid `EmailStr`, is not modelled. `req.email` stands for the validated, normalised address `EmailStr` hands the handler (its domain lower-cased), so "a@Example.com" is compared as "a@example.com".
- Backend.Register and Backend.UpdateProfile: the contracts state the handler's return value. Validation of that value against `response_model=UserRead` is not modelled. As the schema reads, `UserRead.role` is required and the User row has no such column, so the reply may fail validation after the commit.
- UsersLookup.UsersPage.BeginLookup: the typed text is put into the request path unencoded, so text holding '/', '?', '#' or '%' reaches another endpoint or query; the model records the text, not the resulting URL.
- LoginScreen.LoginErrorMessage: only the wording 'Failed to fetch' is mapped to the unreachable-server text, as in the source; browsers that reject with other wording get their message shown as is.
- `useAuth`'s `roles` and `permissions` are kept as fields mirroring the user even though the provider does not expose them.

## Findings

| source | as written | input that shows it | evidently intended | confidence | as-written member | corrected member |
|---|---|---|---|---|---|---|
| project/backend/print_user_permissions.py:27 | reads `role_permissions["Super-Admin"]`, but the imported table (init_roles_permissions.py:17-21) has only Admin, Analyst and Inspector. The KeyError comes after the user's triples were deleted and committed (lines 19-22), so the user is left with none. | a database holding the account 'abhi' and a role named 'Super-Admin' | look up a Super-Admin entry (here: every view) and give the user one Super-Admin triple per view that has a permission row | not executed | UserPermissions.RunAsWritten (with UserPermissions.SuperAdminNotInTable) | UserPermissions.RunCorrected |
| project/src/App.tsx:20 | hides the frame when the pathname is exactly '/login' or '/register', while the route table (lines 39-40) also matches other spellings of those paths | a signed-in user at '/login/' | the frame hidden on every spelling the route table gives to the login and register pages | not executed | Routing.FrameAroundLoginVariant (with Routing.HideLayout) | Routing.FrameOnlyAroundGuardedPages (with Routing.HideLayoutOnRoute) |
