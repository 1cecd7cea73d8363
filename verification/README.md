# Sol-X access control and session logic, in Dafny

Sol-X is a project-management application for renewable-energy projects: an
Express/Prisma backend and a React/Zustand frontend. This project models how
both tiers decide who may see and do what, and proves properties of that
model.

- **Backend.** The `authenticateJWT` and `requireRole` gates and their three preset
  allow-lists. The two routers, as ordered middleware chains. The `login`, `requestAccess`
  and `verifyToken` handlers. The five project handlers (create, list with
  filters and pagination, get, update, delete), with their Zod schemas and the
  order in which 400, 404 and 500 answers win.
- **Frontend.** The persisted session store and the toast store. The
  role-protected route guard and the role-filtered sidebar. The role-based choice of
  dashboard, the two pages' role labels and badge colours, the create-project
  drawer's validation and payload, and the element id the form controls
  derive from their label.

Everything is a pure function over immutable values. The database tables are
values: the user table is a map keyed by the unique email column, and the
project table is a sequence ordered newest first, as `orderBy: { createdAt:
"desc" }` lists it. Browser storage is a map from keys to stored values.
Whatever the program gets from a library it does not control is a
function-typed parameter:

- `jwt.verify`, `jwt.sign` and `bcrypt.compare`;
- Zod's email and ISO-datetime checks;
- the browser's date to ISO-string conversion.

Ids the database assigns, and a project's default status, are parameters too.

Roles travel as strings on every tier (the token claim, the allow-lists,
`user.role` on the client). Module `Roles` pairs the five names with a
datatype, so statements can range over "every role" and also over "any other
string".

Modules, one per source file or component:

- `Wrappers`, `Api`, `Seqs` and `Text` hold the shared vocabulary. `Text` covers JavaScript
  `split`, `join`, `trim`, string `<`, `\s` and `\w`.
- `Roles`, `Schema` (Zod object schemas) and `ParseInt` (JavaScript `parseInt` and
  the `|| default` idiom).
- `AuthMiddleware`, `Router`, `AuthRoutes`, `ProjectRoutes`, `AuthController`
  and `ProjectController`.
- `AuthStore`, `NotificationStore`, `RouteGuard` and `Navigation`.
- `DashboardPage`, `Dashboard`, `ProfilePage`, `CreateProjectDrawer` and `Input`.
- `CrossTier`, which states what holds between the client's rules and the
  server's.

The Dafny field `projectType` is the `type` key of the wire format, because
`type` is a Dafny keyword.

Some behaviours of the source are stated as lemmas because they are easy to
miss:

- The manager check on create is existence only. Any user, a viewer included, may be
  named manager, although the comment above the check speaks of a role
  (`ProjectController.CreateAcceptsAnyRoleAsManager`).
- The drawer accepts a one-character project name that the server then
  refuses (`CrossTier.OneCharacterNameRejected`).
- The dashboard and the profile page label the same role differently
  (`ProfilePage.LabelsDiffer`).
- The two pages give an unknown role different fallback badges
  (`Dashboard.BadgeFallback`, `ProfilePage.BadgeFallback`).

## Model

| member | source | states |
|---|---|---|
| Roles.Parse | frontend/src/types/auth.ts:1-6 | a string parses to a role exactly when it is that role's wire name; any other string names no role |
| Roles.ParseName | frontend/src/types/auth.ts:1-6 | parsing a role's wire name gives the role back |
| Roles.NameInjective | frontend/src/types/auth.ts:1-6 | distinct roles have distinct wire names |
| Roles.NamesMembership | backend/src/middleware/auth.middleware.ts:82 | a role's name is in a name list exactly when the role is in the role list |
| Schema.RequiredString | backend/src/controllers/project.controller.ts:8-21 | a required string key yields at most one issue: none iff present and passing its check, "Required" when missing, its own message when failing |
| Schema.OptionalString | backend/src/controllers/project.controller.ts:23-38 | an optional key is never an issue when absent; when present and failing, its one issue is its message |
| Schema.OptionalPositive | backend/src/controllers/project.controller.ts:13-14 | an optional number is an issue exactly when present and not above zero, with Zod's "Number must be greater than 0" |
| Schema.EnumIssue | backend/src/controllers/project.controller.ts:11 | an enum key passes iff its value is one of the options (or it is optional and absent); a missing required key is "Required" and an outsider gets Zod's enum message naming the value |
| ParseInt.Parse | backend/src/controllers/project.controller.ts:124-125 | whitespace-only text is NaN; a negative result needs a minus sign where the whitespace ends; every number read contains a decimal digit of the text |
| ParseInt.ParseTrimmed | backend/src/controllers/project.controller.ts:124-125 | without leading whitespace: empty text is NaN, a negative result needs a leading minus, and a number read contains a decimal digit |
| ParseInt.Magnitude | backend/src/controllers/project.controller.ts:124-125 | an unsigned number is read only from text that starts with a decimal digit (a hexadecimal one starts with "0x") |
| ParseInt.ParseSkipsSpace | backend/src/controllers/project.controller.ts:124-125 | any whitespace in front of the text changes nothing that is read |
| ParseInt.MinusNegates | backend/src/controllers/project.controller.ts:124-125 | a minus sign in front of text that starts with a digit negates what the text reads as, and NaN stays NaN |
| ParseInt.ParseNegative | backend/src/controllers/project.controller.ts:124-125 | a minus sign in front of the decimal spelling of n reads as -n |
| ParseInt.ParseDigits | backend/src/controllers/project.controller.ts:124-125 | a plain run of decimal digits parses to the number it spells |
| ParseInt.ParseDecimal | backend/src/controllers/project.controller.ts:124-125 | parsing the decimal spelling of any natural number gives that number back |
| ParseInt.NumberOr | backend/src/controllers/project.controller.ts:124-125 | a missing, unparsable or zero query value becomes the default; any other parsed value, negative included, is kept |
| ParseInt.NumberOrDecimal | backend/src/controllers/project.controller.ts:124-125 | a positive number sent in decimal is read back and the default is not used |
| AuthMiddleware.TokenField | backend/src/middleware/auth.middleware.ts:36 | the token slot exists exactly when the header contains a space, and the token never contains a space |
| AuthMiddleware.TokenFieldOf | backend/src/middleware/auth.middleware.ts:36 | "scheme token" and "scheme token rest" yield exactly that token, whatever the first word is |
| AuthMiddleware.SchemeIgnored | backend/src/middleware/auth.middleware.ts:36 | replacing the first word of the header by any other word leaves the extracted token unchanged, so the scheme is never checked |
| AuthMiddleware.AuthenticateJWT | backend/src/middleware/auth.middleware.ts:21-67 | no header is 401 "Authentication required"; no token slot or an empty one is 401 "Invalid token format"; then the verifier decides: pass on with the decoded claims, 401 for a token error, 500 for anything else; the gate passes only claims the verifier decoded |
| AuthMiddleware.GateRefusals | backend/src/middleware/auth.middleware.ts:21-67 | a refusal is 401 with one of three messages, or 500 "Authentication error" |
| AuthMiddleware.FailsClosed | backend/src/middleware/auth.middleware.ts:27-43 | a header without a token is refused with 401 whatever the verifier would say |
| AuthMiddleware.TokenErrorsLookAlike | backend/src/middleware/auth.middleware.ts:55-60 | every token error (expired, forged, malformed) gets the same answer |
| AuthMiddleware.RequireRole | backend/src/middleware/auth.middleware.ts:70-98 | the request passes iff an identity is attached and its role is on the list; no identity is 401, a role off the list is 403 |
| AuthMiddleware.PresetNames | backend/src/middleware/auth.middleware.ts:100-111 | the three presets are exactly the names of master admin; master admin and admin; and those two plus project manager |
| AuthMiddleware.RequireRoleMonotone | backend/src/middleware/auth.middleware.ts:82 | widening an allow-list never turns a pass into a refusal |
| AuthMiddleware.PresetsNest | backend/src/middleware/auth.middleware.ts:100-111 | whoever passes the master-admin preset passes the admin preset, and whoever passes that passes the project-manager preset |
| AuthMiddleware.PresetAllowSets | backend/src/middleware/auth.middleware.ts:100-111 | for each of the five roles, which presets let it through, as an iff |
| AuthMiddleware.RunChain | backend/src/routes/project.routes.ts:18-33 | a chain passes only with an identity if it authenticates, and every role guard after the last authentication saw a role on its list |
| AuthMiddleware.AuthenticateFirstWins | backend/src/routes/project.routes.ts:18 | a chain that starts with authentication answers a tokenless request 401 whatever follows |
| Router.FirstMatch | backend/src/routes/project.routes.ts:21-33 | the index found serves the request and no earlier route does |
| Router.Lookup | backend/src/routes/project.routes.ts:21-33 | no route is picked exactly when no route serves the method and path |
| Router.LookupIs | backend/src/routes/project.routes.ts:21-33 | the first route that serves the request is the one picked |
| Router.HeadFollowsGet | backend/src/routes/project.routes.ts:21-24 | in a table with no HEAD routes, a HEAD request picks exactly the route the GET request for the same path picks |
| Router.HeadDispatchedAsGet | backend/src/routes/project.routes.ts:18-24 | behind the same router guards, a HEAD request meets exactly the outcome of the GET request for its path |
| Router.Dispatch | backend/src/server.ts:41-47 | a handled request reached the handler of the route that lookup picks; a request that falls through to "Route not found" matched no route |
| Router.AfterGuards | backend/src/routes/project.routes.ts:27-33 | a chosen route either refuses or reaches its own handler; it never falls through to not-found |
| Router.UnroutedFallsThrough | backend/src/server.ts:41-47 | whatever the method, path and table, once the router-level guards pass, a request no route serves ends in the "Route not found" handler, the converse of Dispatch's not-found clause |
| Router.DispatchAt | backend/src/routes/project.routes.ts:18-33 | once the router-level guards pass, the first route that serves the request decides, through its own guards |
| Router.AuthenticatesPasses | backend/src/middleware/auth.middleware.ts:46-51 | a header whose token the verifier decodes passes the gate with those claims |
| AuthRoutes.PublicRoutes | backend/src/routes/auth.routes.ts:14-15 | login and request-access reach their handlers with no identity, whatever header is sent |
| AuthRoutes.ProtectedRoutes | backend/src/routes/auth.routes.ts:18-20 | verify and both profile routes answer exactly as the token gate does |
| AuthRoutes.VerifyRoute | backend/src/routes/auth.routes.ts:18 | `GET /verify` answers exactly as the token gate does |
| AuthRoutes.ProfileRoutes | backend/src/routes/auth.routes.ts:19-20 | `GET /profile` and `PUT /profile` answer exactly as the token gate does |
| AuthRoutes.AnyRoleReachesProtected | backend/src/routes/auth.routes.ts:18-20 | any authenticated identity, whatever its role, reaches the three protected handlers |
| AuthRoutes.ServeVerify | backend/src/controllers/auth.controller.ts:170-192 | `GET /verify` succeeds iff the gate passes, echoing the verified id, email and role; behind the gate the handler's own 500 cannot occur |
| AuthRoutes.HeadIsGet | backend/src/routes/auth.routes.ts:18-19 | HEAD on any path is answered as GET on that path, so `HEAD /verify` and `HEAD /profile` are gated like their GET routes |
| ProjectRoutes.AuthenticateRunsFirst | backend/src/routes/project.routes.ts:18 | a tokenless request is refused 401 on every modelled method and every path, including ones no route serves |
| ProjectRoutes.GateAnswersFirst | backend/src/routes/project.routes.ts:18 | whatever the token gate answers is the router's answer on every modelled method and every path |
| ProjectRoutes.HandlersSeeIdentity | backend/src/routes/project.routes.ts:18-33 | every handled request carries the identity the token gate decoded |
| ProjectRoutes.RoleMatrix | backend/src/routes/project.routes.ts:20-33 | for each role: both reads open to all; create and update to project manager and above; delete to admin and above; everyone else 403 |
| ProjectRoutes.RouterGuardPasses | backend/src/routes/project.routes.ts:18 | an authenticated caller leaves the router-level gate with its own claims attached |
| ProjectRoutes.GuardedRoute | backend/src/routes/project.routes.ts:27-33 | a route behind one role preset reaches its handler iff the preset lets the role through, and answers 403 otherwise |
| ProjectRoutes.ReadRoutes | backend/src/routes/project.routes.ts:21-24 | both reads reach their handlers for any authenticated caller |
| ProjectRoutes.CreateRoute | backend/src/routes/project.routes.ts:27 | create reaches its handler iff the caller passes the project-manager preset, else 403 |
| ProjectRoutes.UpdateRoute | backend/src/routes/project.routes.ts:30 | update reaches its handler iff the caller passes the project-manager preset, else 403 |
| ProjectRoutes.DeleteRoute | backend/src/routes/project.routes.ts:33 | delete reaches its handler iff the caller passes the admin preset, else 403 |
| ProjectRoutes.UnroutedAfterGate | backend/src/routes/project.routes.ts:18-33 | an authenticated request with a method or path no route serves falls through to not-found |
| ProjectRoutes.UnroutedExamples | backend/src/routes/project.routes.ts:18-33 | an authenticated PATCH of a project, or a DELETE with no id, falls through to not-found |
| ProjectRoutes.HeadIsGet | backend/src/routes/project.routes.ts:18-24 | HEAD on any path is answered as GET on that path: the token gate first, then the two read routes |
| AuthController.ParseLogin | backend/src/controllers/auth.controller.ts:10-27 | the body is accepted iff the email passes the email check and the password is non-empty; a refusal carries the first issue in key order |
| AuthController.ExpiresIn | backend/src/controllers/auth.controller.ts:67 | the expiry is never empty: a non-empty setting is used as it is, an unset or empty one means "7d" |
| AuthController.LoginIssues | backend/src/controllers/auth.controller.ts:10-13 | at most two issues; none exactly when the email passes the email check and the password is non-empty; the first belongs to the email key when it fails, else to the password key |
| AuthController.Login | backend/src/controllers/auth.controller.ts:23-101 | success iff the body is valid, the email is known, the account is active, the password matches and signing succeeds; the token is what the signer makes of the user's id, email and role with the configured expiry or "7d"; the reply omits hash and flag; a signer that throws gives 500 "An error occurred during login"; every other failure is 400, 401 or 403 |
| AuthController.LoginEchoesEmail | backend/src/controllers/auth.controller.ts:30-32 | with the table keyed by its email column, the user a login returns has the email that was sent |
| AuthController.LoginValidatesFirst | backend/src/controllers/auth.controller.ts:26 | a malformed body is answered with its first issue and the user table plays no part |
| AuthController.UnknownEmailLooksLikeWrongPassword | backend/src/controllers/auth.controller.ts:34-56 | an unknown email and a wrong password get the identical 401 reply |
| AuthController.InactiveRefusedBeforePassword | backend/src/controllers/auth.controller.ts:42-56 | an inactive account is refused 403 and the password check has no influence |
| AuthController.IssuedTokenAuthenticates | backend/src/controllers/auth.controller.ts:59-69 | sent back as "Bearer token", a login's token passes the gate with the user's id, email and role, given a verifier that accepts what the signer signs and a signer whose tokens, like compact JWTs, are non-empty and contain no space |
| AuthController.AccessRequestIssuesEmptyIff | backend/src/controllers/auth.controller.ts:15-20 | an access request has no issues exactly when name, email, company and message meet their checks |
| AuthController.AccessRequestIssues | backend/src/controllers/auth.controller.ts:15-20 | at most four issues; the first is the message of the first key, in the order name, email, company, message, that is missing ("Required") or fails its check |
| AuthController.RequestAccess | backend/src/controllers/auth.controller.ts:104-167 | 201 with the new request's id iff the body is valid and the email has no account, and only then is one request appended and a notification mail attempted for it, its failure logged exactly when the mail throws; otherwise 400 with the first issue or the duplicate message, nothing stored, no mail |
| AuthController.MailFailureIgnored | backend/src/controllers/auth.controller.ts:133-143 | a mail that throws changes neither the reply, nor the stored requests, nor the mail attempted; the only difference is the logged failure, present exactly when a mail was attempted |
| AuthController.VerifyToken | backend/src/controllers/auth.controller.ts:170-192 | with an attached identity the reply echoes its id, email and role under `user`; without one it is the 500 message |
| ProjectController.Find | backend/src/controllers/project.controller.ts:191-202 | a record is found iff a row has the id, and what is found is that row |
| ProjectController.CreateIssues | backend/src/controllers/project.controller.ts:8-21 | at most seven issues; the first is the message of the first key, in schema order, that is missing or fails its check |
| ProjectController.CreateTextIssues | backend/src/controllers/project.controller.ts:9-12 | the name, type and location keys raise no issue exactly when each is present and passes; otherwise the first of them that fails gives the create body's first issue |
| ProjectController.CreateValueIssues | backend/src/controllers/project.controller.ts:13-19 | the number and date keys raise no issue exactly when each optional one is absent or passes and the start date is present and passes; when the earlier keys pass, the first of them that fails gives the create body's first issue |
| ProjectController.CreateIssuesEmptyIff | backend/src/controllers/project.controller.ts:8-21 | the create body has no issues exactly when every field meets its schema rule |
| ProjectController.ManagerFor | backend/src/controllers/project.controller.ts:47 | the manager is the caller or the given id; a non-empty given id wins, and an empty one never becomes the manager unless the caller's id is empty |
| ProjectController.CreateProject | backend/src/controllers/project.controller.ts:41-119 | success iff the body is valid and the manager (the given id, or the caller when none or empty) exists; failures are 400 with the first issue or "Invalid manager ID" and leave the table alone; success is 201 and prepends a record carrying every field of the body |
| ProjectController.CreateDefaultsManagerToCaller | backend/src/controllers/project.controller.ts:46-47 | without a manager id, or with an empty one, the caller becomes the manager |
| ProjectController.CreateAcceptsAnyRoleAsManager | backend/src/controllers/project.controller.ts:49-59 | naming any existing user as manager succeeds, whatever that user's role |
| ProjectController.CreateKeepsIdsUnique | backend/src/controllers/project.controller.ts:61-72 | a fresh id keeps the table's ids unique |
| ProjectController.PrependKeepsUnique | backend/src/controllers/project.controller.ts:61-72 | a row whose id the table lacks goes in front without repeating an id |
| ProjectController.CreateThenGet | backend/src/controllers/project.controller.ts:61-72 | a created project reads back by its new id as the record the create answered with |
| ProjectController.WhereOf | backend/src/controllers/project.controller.ts:126-131 | a filter key is present iff its query value is a non-empty string, and then it carries that value |
| ProjectController.Matching | backend/src/controllers/project.controller.ts:133-150 | the filtered rows keep table order and are exactly the rows the filter selects |
| ProjectController.Window | backend/src/controllers/project.controller.ts:146-147 | for a non-negative take, the rows from skip up to skip plus take, clipped to the table; never more rows than there are |
| ProjectController.ListProjects | backend/src/controllers/project.controller.ts:122-184 | 500 iff a filter value is outside its enum or the offset is negative; otherwise 200 with the defaulted page and limit, the filtered count, and rows that are a filtered, ordered sub-sequence forming the requested window |
| ProjectController.PageOf | backend/src/controllers/project.controller.ts:133-170 | a page holds filtered rows in table order, its total counts every filtered row, and for a non-negative limit it is the right window |
| ProjectController.WindowIsSubsequence | backend/src/controllers/project.controller.ts:146-147 | skip and take, a negative take included, only ever drop rows and never reorder them |
| ProjectController.ListDefaults | backend/src/controllers/project.controller.ts:124-147 | with no query the reply is page 1 of 10: the ten newest projects and the full count |
| ProjectController.ListWindow | backend/src/controllers/project.controller.ts:146-147 | page p of size l holds filtered rows (p-1)*l up to p*l |
| ProjectController.PageWindow | backend/src/controllers/project.controller.ts:146-147 | with skip set to page p's offset, skip-then-take over the filtered rows is exactly rows (p-1)*l up to p*l |
| ProjectController.ListPage | backend/src/controllers/project.controller.ts:124-147 | the same window for page and limit sent as decimal strings |
| ProjectController.OffsetOfPage | backend/src/controllers/project.controller.ts:146 | for page 1 and beyond the offset is non-negative and the page ends at p*l |
| ProjectController.GetProject | backend/src/controllers/project.controller.ts:187-238 | 200 with the row iff the id exists; otherwise 404 "Project not found" |
| ProjectController.UpdateIssues | backend/src/controllers/project.controller.ts:23-38 | at most eight issues; the first is the message of the first present key, in schema order, that fails its check |
| ProjectController.UpdateTextIssues | backend/src/controllers/project.controller.ts:24-32 | the name, type, status and location keys raise no issue exactly when each is absent or passes; otherwise the first of them that fails gives the update's first issue |
| ProjectController.UpdateValueIssues | backend/src/controllers/project.controller.ts:33-36 | the number and date keys raise no issue exactly when each is absent or passes; when the earlier keys pass, the first of them that fails gives the update's first issue |
| ProjectController.UpdateIssuesEmptyIff | backend/src/controllers/project.controller.ts:23-38 | the update body has no issues exactly when every present key meets its rule: names and locations of two or more characters, enum members, positive numbers, datetimes |
| ProjectController.EmptyUpdateIsIdentity | backend/src/controllers/project.controller.ts:257-267 | an empty update body leaves the record unchanged |
| ProjectController.UpdateIdempotent | backend/src/controllers/project.controller.ts:257-267 | applying the same update twice is applying it once |
| ProjectController.UpdateProject | backend/src/controllers/project.controller.ts:241-314 | success iff the body has no issues and the id exists; issues win with 400 before the 404 lookup, and both leave the table alone; success returns the updated record, rewrites only that row and keeps ids unique |
| ProjectController.UpdateThenGet | backend/src/controllers/project.controller.ts:265-298 | after a successful update, reading the id gives exactly the record the update answered with |
| ProjectController.UpdateLeavesOthers | backend/src/controllers/project.controller.ts:265-267 | an update, successful or not, leaves every other id reading back exactly as before |
| ProjectController.FindUnchanged | backend/src/controllers/project.controller.ts:265-267 | rewriting the rows of one id leaves the lookup of any other id unchanged |
| ProjectController.FindAgrees | backend/src/controllers/project.controller.ts:265-267 | two tables with the same ids row by row that agree on every row of one id look that id up to the same row |
| ProjectController.DeleteProject | backend/src/controllers/project.controller.ts:317-347 | success iff the id exists; 404 leaves the table alone; success removes that id, shrinks the table and keeps every other row in order |
| ProjectController.DeleteThenGet | backend/src/controllers/project.controller.ts:332-334 | after a delete, reading the id is 404 |
| AuthStore.Commit | frontend/src/store/authStore.ts:20-22 | after a state change the stored snapshot mirrors the new state and every other storage key is untouched |
| AuthStore.Rehydrate | frontend/src/store/authStore.ts:20-26 | a page load restores the stored snapshot when there is one, starts from the initial state otherwise, and is never loading |
| AuthStore.LoginStart | frontend/src/store/authStore.ts:28-29 | starting a login only raises the loading flag and keeps the invariant |
| AuthStore.LoginSettle | frontend/src/store/authStore.ts:30-46 | a payload becomes the session (user, token, authenticated, token key stored); a thrown error is rethrown with the session as it was, loading cleared; the invariant is kept |
| AuthStore.Login | frontend/src/store/authStore.ts:28-46 | a whole login keeps the session invariant |
| AuthStore.FailedLoginKeepsSession | frontend/src/store/authStore.ts:42-45 | a failed login rethrows and leaves user, token and the authenticated flag as they were |
| AuthStore.ClearAuth | frontend/src/store/authStore.ts:71-79 | both storage keys are gone, the session is empty and not authenticated, and the invariant holds |
| AuthStore.LogoutIdempotent | frontend/src/store/authStore.ts:48-56 | logging out twice is logging out once |
| AuthStore.SetUser | frontend/src/store/authStore.ts:58-65 | the given user and token become the session and the token key is stored; the invariant is kept |
| AuthStore.UpdateUser | frontend/src/store/authStore.ts:67-69 | only the user changes: token, flags and every storage key but the snapshot stay |
| AuthStore.StepPreserves | frontend/src/store/authStore.ts:20-90 | every action, page reloads included, keeps "authenticated iff token" and the stored snapshot in step |
| AuthStore.RunPreserves | frontend/src/store/authStore.ts:20-90 | the same for any sequence of actions |
| AuthStore.BootIsInitial | frontend/src/store/authStore.ts:22-26 | a first load on empty storage is the initial session, and its first commit establishes the invariant |
| AuthStore.BootFirstStep | frontend/src/store/authStore.ts:20-90 | from the first page load, any first action other than a reload commits a consistent state and mirrors it in storage |
| AuthStore.BootRuns | frontend/src/store/authStore.ts:20-90 | from the first page load, after any sequence of actions, the client is authenticated exactly when it holds a token |
| AuthStore.LogoutSurvivesReload | frontend/src/store/authStore.ts:48-56 | a reload after logout comes back logged out, with no user and no token |
| AuthStore.ReloadRestores | frontend/src/store/authStore.ts:81-88 | a reload gives back exactly the persisted part of the session; only the loading flag resets |
| NotificationStore.Add | frontend/src/store/notificationStore.ts:26-42 | the notification is appended with the given or default 4000 ms duration, and a removal is scheduled iff that duration is positive |
| NotificationStore.Remove | frontend/src/store/notificationStore.ts:44-48 | what remains keeps its order and is exactly the entries with another id |
| NotificationStore.Expire | frontend/src/store/notificationStore.ts:35-41 | a firing timer leaves exactly the entries with another id |
| NotificationStore.ClearAll | frontend/src/store/notificationStore.ts:50-52 | the queue is empty and holds no id, so removing any id afterwards changes nothing |
| NotificationStore.ExpireAll | frontend/src/store/notificationStore.ts:35-41 | firing any number of timers only drops entries and keeps the order of what is left |
| NotificationStore.ClearThenTimers | frontend/src/store/notificationStore.ts:35-52 | timers still pending from before a clear fire harmlessly on the empty queue, however many there are |
| NotificationStore.RemoveUnknown | frontend/src/store/notificationStore.ts:44-48 | removing an id not in the queue changes nothing |
| Seqs.FilterDropLast | frontend/src/store/notificationStore.ts:44-48 | an appended element that the filter rejects leaves the filtered result unchanged |
| NotificationStore.AddThenRemove | frontend/src/store/notificationStore.ts:26-48 | adding with a fresh id and removing that id gives back the original queue |
| NotificationStore.LateTimerHarmless | frontend/src/store/notificationStore.ts:35-48 | a timer that fires after its notification was removed by hand changes nothing |
| RouteGuard.Guard | frontend/src/components/RoleProtectedRoute.tsx:11-26 | logged out goes to the login page; a user whose role is not allowed goes to access-denied; the page renders iff logged in and (no user, or the role allowed) |
| RouteGuard.GuardMonotone | frontend/src/components/RoleProtectedRoute.tsx:21 | widening the allowed roles never turns a rendered page into a redirect |
| RouteGuard.LoggedOutRedirects | frontend/src/components/RoleProtectedRoute.tsx:17-19 | after logout, and after a reload following it, every guarded page redirects to login |
| RouteGuard.FreshSessionGuard | frontend/src/components/RoleProtectedRoute.tsx:17-25 | right after a successful login a guarded page renders iff the user's role is allowed |
| Navigation.ForRole | frontend/src/lib/navigation.ts:70-72 | the menu keeps table order and holds exactly the items that list the role |
| Navigation.VisibleIsKeepAll | frontend/src/lib/navigation.ts:71 | filtering a list of items by role equals keeping, one item at a time, each item that lists the role |
| Navigation.ForRoleUnfolded | frontend/src/lib/navigation.ts:13-72 | a role's menu is the table's seven items, each kept exactly when it lists the role, in table order |
| Navigation.SharedItems | frontend/src/lib/navigation.ts:13-42 | Dashboard and Reports are offered to every role |
| Navigation.EngineerOnlyItems | frontend/src/lib/navigation.ts:44-55 | My Tasks and Update Progress are offered iff the role is site engineer |
| Navigation.AdminOnlyItems | frontend/src/lib/navigation.ts:56-67 | Users and Settings are offered iff the role is admin or master admin |
| Navigation.ViewerMenu | frontend/src/lib/navigation.ts:13-72 | a viewer's menu is Dashboard, Reports |
| Navigation.SiteEngineerMenu | frontend/src/lib/navigation.ts:13-72 | a site engineer's menu is Dashboard, Reports, My Tasks, Update Progress |
| Navigation.ProjectManagerMenu | frontend/src/lib/navigation.ts:13-72 | a project manager's menu is Dashboard, Projects, Reports |
| Navigation.AdminMenu | frontend/src/lib/navigation.ts:13-72 | admin and master admin both see Dashboard, Projects, Reports, Users, Settings |
| Navigation.UnknownRoleSeesNothing | frontend/src/lib/navigation.ts:70-72 | a string that names no role gets an empty menu |
| DashboardPage.Choose | frontend/src/pages/DashboardPage.tsx:12-33 | nothing renders exactly when there is no user |
| DashboardPage.DashboardPerRole | frontend/src/pages/DashboardPage.tsx:20-32 | the admin dashboard is chosen iff the role is admin, master admin or no role at all; each other role gets its own |
| DashboardPage.DistinctDashboards | frontend/src/pages/DashboardPage.tsx:24-29 | the three non-admin roles see three different dashboards |
| Dashboard.AdjustWord | frontend/src/pages/Dashboard.tsx:34 | a word keeps its length and its first character as it is, and the rest is lower-cased |
| Dashboard.FormatRoleOneWord | frontend/src/pages/Dashboard.tsx:31-36 | a role without underscores is one word, adjusted as a word |
| Dashboard.FormatRoleFirstWord | frontend/src/pages/Dashboard.tsx:31-36 | the first underscore-delimited word is adjusted and followed by one space and the rest's label |
| Dashboard.FormatRoleIsLabel | frontend/src/pages/Dashboard.tsx:31-36 | splitting on underscores, adjusting each word and joining with spaces equals the character-wise rule: an underscore becomes a space, a word's first character stays, the rest are lower-cased |
| Dashboard.LabelShape | frontend/src/pages/Dashboard.tsx:31-36 | the label keeps the role's length, has spaces exactly where the role had underscores or spaces, and no underscore |
| Dashboard.RoleLabels | frontend/src/pages/Dashboard.tsx:31-36 | the five roles read Master Admin, Admin, Project Manager, Site Engineer, Viewer, and the empty fallback reads empty |
| Dashboard.InitialsKept | frontend/src/pages/Dashboard.tsx:31-36 | for every role: the label keeps the role's length; the first character of each underscore-delimited word is shown unchanged, so lower-case initials stay lower-case; every other character that is not an underscore is lower-cased |
| Dashboard.BadgesDistinct | frontend/src/pages/Dashboard.tsx:14-29 | two roles get the same badge exactly when they are the same role |
| Dashboard.BadgeFallback | frontend/src/pages/Dashboard.tsx:26-27 | a string that names no role gets the viewer's badge |
| Dashboard.LogoutThenLogin | frontend/src/pages/Dashboard.tsx:9-12 | the logout button lands on the login page with the session and token key already cleared |
| ProfilePage.Capitalize | frontend/src/pages/ProfilePage.tsx:13 | exactly the word characters with no word character before them are upper-cased |
| ProfilePage.FormatRole | frontend/src/pages/ProfilePage.tsx:12-14 | the label keeps the length and upper-cases exactly the word starts of the re-spaced role |
| ProfilePage.FormatRoleShape | frontend/src/pages/ProfilePage.tsx:12-14 | no underscore survives, and a role with no lower-case letters is only re-spaced |
| ProfilePage.LabelsDiffer | frontend/src/pages/ProfilePage.tsx:12-14 | for a role in capitals with a letter past a word start, the profile keeps the capital, the dashboard lower-cases it, and the labels differ |
| ProfilePage.MasterAdminLabels | frontend/src/pages/ProfilePage.tsx:12-14 | the master administrator reads "MASTER ADMIN" here, unlike on the dashboard |
| ProfilePage.BadgesDistinct | frontend/src/pages/ProfilePage.tsx:17-32 | two roles get the same badge exactly when they are the same role |
| ProfilePage.BadgeFallback | frontend/src/pages/ProfilePage.tsx:29-30 | a string that names no role gets the master administrator's badge |
| ProfilePage.Render | frontend/src/pages/ProfilePage.tsx:6-84 | nothing renders exactly when there is no user; the card shows the user's name, email and id, the role label of `formatRole` (as long as the role) and the badge of `getRoleBadgeColor` for the role |
| CreateProjectDrawer.Validate | frontend/src/components/projects/CreateProjectDrawer.tsx:59-81 | the form passes exactly when no error was recorded |
| CreateProjectDrawer.CollectFields | frontend/src/components/projects/CreateProjectDrawer.tsx:60-78 | each of the four checks records its error, with its message, exactly when it fired, and no other field gets one |
| CreateProjectDrawer.ValidateFields | frontend/src/components/projects/CreateProjectDrawer.tsx:59-81 | an error appears for a blank name, a blank location, an empty start date, and an end date that sorts before the start date, each iff its condition and with its message; description and type never get one |
| CreateProjectDrawer.ValidatePasses | frontend/src/components/projects/CreateProjectDrawer.tsx:59-81 | the form passes iff the name and location are not blank, a start date is given, and the end date does not sort before it |
| Text.LowerStringAppend | frontend/src/components/ui/Input.tsx:17 | lower-casing distributes over concatenation |
| Text.TrimEmptyIffBlank | frontend/src/components/projects/CreateProjectDrawer.tsx:62-67 | a trimmed value is empty exactly when the value is all whitespace |
| CreateProjectDrawer.DateOrder | frontend/src/components/projects/CreateProjectDrawer.tsx:71-77 | equal dates pass, and of a pair of dates at most one order is refused |
| CreateProjectDrawer.HandleChange | frontend/src/components/projects/CreateProjectDrawer.tsx:35-49 | only the changed field takes the value; that field's error, if present, is blanked and every other error stays |
| CreateProjectDrawer.HandleClose | frontend/src/components/projects/CreateProjectDrawer.tsx:127-140 | the form is reset to its defaults (type SOLAR, everything else empty) and the errors cleared |
| CreateProjectDrawer.CloseThenValidate | frontend/src/components/projects/CreateProjectDrawer.tsx:127-140 | a reset form fails validation for exactly its three required fields |
| CreateProjectDrawer.Payload | frontend/src/components/projects/CreateProjectDrawer.tsx:90-96 | the request body carries every form field, the start date converted; an end date is sent exactly when one was entered, and then converted; no manager id |
| CreateProjectDrawer.Submit | frontend/src/components/projects/CreateProjectDrawer.tsx:83-96 | a body is sent iff the form validates, and it is the form's payload |
| Input.CollapseSpaces | frontend/src/components/ui/Input.tsx:17 | no whitespace remains |
| Input.CollapseKeepsCase | frontend/src/components/ui/Input.tsx:17 | collapsing introduces no upper-case letter |
| Input.CollapseNoSpace | frontend/src/components/ui/Input.tsx:17 | text without whitespace is left unchanged |
| Input.CollapseKeepsWord | frontend/src/components/ui/Input.tsx:17 | a whitespace-free prefix passes through untouched in front of the collapsed remainder |
| Input.CollapseLeadingRun | frontend/src/components/ui/Input.tsx:17 | a leading whitespace run becomes one hyphen in front of the collapsed remainder |
| Input.Slug | frontend/src/components/ui/Input.tsx:17 | a derived id holds no whitespace and no upper-case letter |
| Input.InputId | frontend/src/components/ui/Input.tsx:17 | a non-empty explicit id wins; otherwise the label's slug, or no id without a label |
| Input.CollapseRun | frontend/src/components/ui/Input.tsx:17 | a whitespace run between two words becomes exactly one hyphen |
| Input.SlugIdempotent | frontend/src/components/ui/Input.tsx:65 | deriving an id from a derived id changes nothing |
| Input.SlugTwoWords | frontend/src/components/ui/Input.tsx:114 | two words around any whitespace run give the lower-cased words joined by one hyphen |
| CrossTier.ProjectsLinkMatchesWriteGuard | frontend/src/lib/navigation.ts:27-31 | the sidebar offers Projects to exactly the roles the server lets create and update projects |
| CrossTier.OneCharacterNameRejected | backend/src/controllers/project.controller.ts:9 | a form with a one-character name passes the drawer's validation, and the server answers its payload with 400 "Project name must be at least 2 characters" and stores nothing |

## Left out

- Token signing and checking, password hashing, and Zod's email and ISO-datetime formats are oracles. Their algorithms are not modelled.
- Request bodies hold strings and numbers only. A JSON value of another type (a number where a string is expected, `null`, an array) is not modelled, and neither are Zod's messages for it.
- Query parameters are strings or absent. Express's repeated-key arrays are not modelled.
- Strings are sequences of characters. UTF-16 surrogate pairs, and case mappings outside ASCII, are not modelled. JavaScript's `toLowerCase` and `toUpperCase` can change the length of non-ASCII text.
- The database's own failures are not modelled. These are the 500 answers of create (project.controller.ts:114-117), get (233-236), update (309-312), delete (342-345), login (auth.controller.ts:96-99, which the model reaches only through a signer that throws) and requestAccess (162-165), and the guarded 500 of requireRole (auth.middleware.ts:90-96), whose body cannot throw. The list's 500 is modelled for the inputs that cause it: a negative offset, or a filter value outside its enum.
- ProjectController.UpdateProject: a manager id that names no user makes the database's foreign-key check fail with 500. The model writes the id as given.
- ProjectController.Window and ProjectController.ListProjects: a negative take is read as Prisma's backward window over the end of the filtered rows. The ensures state only the non-negative case and the sub-sequence property.
- The response's manager projection, the `createdAt`/`updatedAt` timestamps and the Date round trip of the date columns are not modelled. Dates are stored as the strings the request carried.
- The status a new project gets is the database's column default. It is the parameter `initialStatus`.
- `getProfile` and `updateProfile` are routed (auth.routes.ts:19-20) but their handlers are not part of this model.
- How the mail module sends is not modelled. Whether sending throws is the parameter `mailFails`, and the handler's log line is a flag.
- The HTTP server set-up, CORS and the error handler are not modelled. Only the 404 fall-through is.
- Router.Verb: OPTIONS is not a modelled method, because the `cors` middleware (server.ts:14-19) ends every OPTIONS request itself before any router sees it. A method no route uses reaches the routers' guards and then the 404 fall-through (ProjectRoutes.UnroutedAfterGate).
- Express's trailing-slash and case-insensitive path matching are not modelled. Paths are matched as exact segment sequences.
- `parseInt` is exact. The loss of precision of large numbers in a JavaScript double is not modelled.
- Timers are explicit events, not the passage of time, and the toast ids from the clock and the random generator are parameters.
- In the create drawer, `handleNumberChange` (`parseFloat`) is not modelled: capacity and budget are already numbers. Neither is `handleSubmit`'s network call, its notifications, or its reset after success.
- The drawer's error object is keyed by form field rather than by arbitrary string: every key it is given comes from an input's `name`, which is one of the six fields.
- The four role dashboards are mock pages. Only which one is chosen is modelled, and rendering is not.
- The persistence middleware's JSON encoding and version field are abstracted to a stored snapshot value.
