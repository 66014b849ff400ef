# Project-management admin client: verified model of its logic

This project models the logic of a single-page admin client for a project and user
management backend. Most of that client is markup; the logic modelled here is:

- **The session-aware request gateway** (`src/api/client.ts`). A request hook copies the
  stored token into an `Authorization: Bearer <token>` header (section 2.1 of RFC 6750). A
  response hook turns a first 401 into a call to `/auth/refresh-token`, then either updates the
  session and replays the original request once, or logs out.
  - `Client.Run` is a function that specifies one logical call. Its inputs are the storage map,
    the session, the log of transmitted requests, and a network oracle that answers the k-th
    transmission with `net(k)`.
  - The class `Client.Gateway` with its mutable `Client.Config` objects is the hook code itself.
    `Gateway.Request` is proved to return, transmit and store exactly what `Run` says.
- **The route guard** (`ProtectedRoute`). It decides between going to the login page, going
  home, and rendering the route.
- **The endpoint descriptors of the two data slices.** These are the URL builders (proved
  unambiguous by parsing them back), the response reshape, the mutation descriptors and the
  cache tags.
- **The sidebar.** This covers the role-dependent menu, the exact-match active item, and the
  drawer's open flag.
- **Page-level rules.**
  - The user page's pager, status toggle and invite modal.
  - The project table's labels and per-row actions.
  - The dashboard's soft-delete filter and its create form.

Two behaviours of the gateway are kept as the code has them:

- **The replay goes through the request hook again.** So a non-empty stored token overrides the
  header written for the replay (`Client.ReplayHeaderChoice`, `Client.RefreshSuccessReplaysOnce`).
- **The refresh call is an ordinary call on a fresh config.** It carries the stored, stale bearer
  header, and a 401 on it re-enters the response hook instead of logging out. If the server
  answers 401 to everything, the calls never stop. The model bounds how deeply refreshes and
  replays nest by `fuel`. `Client.AlwaysUnauthorizedExhaustsFuel` shows that under all-401
  replies the whole bound is spent on refresh calls, and `Client.FuelAdequateAll` shows that any
  other result does not depend on the bound.

Three more facts about the code shape the model:

- The refresh call carries the stored bearer header (src/api/client.ts:11-14, 31), because it
  passes through the same request hook as every other call.
- An already-retried 401 is rejected without a logout (src/api/client.ts:26, 45). Only the
  refresh's own failure dispatches `logout` (src/api/client.ts:40-41).
- Nothing shown persists the new token: line 35 only dispatches `setCredentials`. Whether the
  reducer also writes browser storage depends on `store/authSlice`, which is not part of this
  model. The `persists` flag of `Auth.Dispatch` covers both possibilities.

setCredentials and logout are abstract session updates. Browser storage is a string-to-string
map. The network, the user's answer to the confirmation dialog, and whether a mutation
succeeded are all inputs.

## Model

| member | source | states |
|---|---|---|
| `Client.Bearer` | src/api/client.ts:14 | the header is the prefix `Bearer ` followed by exactly the token |
| `Client.StoredToken` | src/api/client.ts:12 | `getItem('token')`: present exactly when the key is stored, and then the stored text |
| `Client.HasToken` | src/api/client.ts:13 | the token is truthy: stored and non-empty |
| `Client.IsSuccess` | src/api/client.ts:21 | a reply the success handler receives: a response with a 2xx status |
| `Client.IsUnauthorized` | src/api/client.ts:26 | `error.response?.status === 401`: a response, and its status is 401 |
| `Client.FreshReq` | src/api/client.ts:31 | the config `api.post` builds: the given url and verb, with no header and no `_retry` mark |
| `Client.WithBearer` | src/api/client.ts:11-17 | with a non-empty stored token the header becomes exactly `Bearer <token>`; with no token or an empty one it is left untouched; url, verb and `_retry` never change |
| `Client.StoredUser` | src/api/client.ts:34 | the stored `user` text when it is non-empty, otherwise `{}` |
| `Client.Direct` | src/api/client.ts:21 | a 2xx reply resolves with that reply; any other reply is rejected with the error of that same transmission |
| `Client.Run` | src/api/client.ts:20-47 | one logical call: the hooks never change the url or the verb, and the config ends marked `_retry` exactly when it already was or its first reply was 401 |
| `Client.FuelAdequate` | src/api/client.ts:20-47 | a call that does not run out of fuel gives the same outcome, world and config with one more unit, so fuel only cuts off calls that need deeper nesting |
| `Client.FuelAdequateAll` | src/api/client.ts:20-47 | a call that does not run out of fuel gives the same outcome, world and config with every larger bound |
| `Client.SentGrows` | src/api/client.ts:11-47 | the log of transmissions only grows, and a call first transmits its own config as the request hook leaves it |
| `Client.OutcomeFromOwnCalls` | src/api/client.ts:20-47 | whatever a call settles with comes from one of its own transmissions |
| `Client.SuccessPassesThrough` | src/api/client.ts:21 | a success is returned unchanged after one transmission, with no refresh call and storage and session unchanged |
| `Client.NonRefreshableErrorRejected` | src/api/client.ts:26-45 | no response, a non-401 status, or a config already marked `_retry` is rejected with that same error; nothing more is sent and storage and session are unchanged |
| `Client.RetriedRequestIsSingleShot` | src/api/client.ts:26-27 | a config marked `_retry` is transmitted exactly once and never triggers a refresh |
| `Client.FirstUnauthorizedIssuesRefresh` | src/api/client.ts:26-31 | on a first 401 the config is marked `_retry`, and the next transmission is a POST to `/auth/refresh-token` carrying the stored bearer header |
| `Client.RefreshFailureLogsOut` | src/api/client.ts:40-43 | a failed refresh dispatches logout and transmits nothing more, so there is no replay; the caller gets the refresh error, never the original 401 |
| `Client.ReplayHeader` | src/api/client.ts:38-39 | the header the replay goes out with: line 38 writes `Bearer <new token>`, and the request hook of line 14 then overrides it |
| `Client.ReplayHeaderChoice` | src/api/client.ts:38-39 | the replay carries the stored token whenever one is stored; `Bearer <new token>` survives only when none is |
| `Client.RefreshSuccessReplaysOnce` | src/api/client.ts:31-39 | setCredentials gets the stored user (or `{}`) and the new token; the original request is replayed exactly once; the caller gets the replay's own outcome, a second 401 included; when the session is persisted, storage then holds the new token |
| `Client.AlwaysUnauthorizedExhaustsFuel` | src/api/client.ts:26-31 | if every reply is 401, the calls go on until the fuel runs out, and every call after the first is a refresh carrying the same stale header |
| `Client.Config.constructor` | src/api/client.ts:31 | a config built by `api.post` has no header and no `_retry` mark |
| `Client.Gateway.constructor` | src/api/client.ts:5-8 | the gateway starts with the given storage and session and nothing transmitted yet |
| `Client.Gateway.Dispatch` | src/api/client.ts:35 | the session store becomes the store's reduction of the action |
| `Client.Gateway.RequestHook` | src/api/client.ts:11-17 | the config after the hook is `WithBearer` of the config before it |
| `Client.Gateway.Send` | src/api/client.ts:31 | appends the config to the log and returns the oracle's reply for that transmission |
| `Client.Gateway.Request` | src/api/client.ts:20-47 | the outcome, the new storage, session and log, and the config after the call are exactly those `Run` gives |
| `Client.Gateway.Call` | src/api/client.ts:31 | a call on a fresh config behaves as `Run` on a fresh request |
| `Auth.Dispatch` | src/api/client.ts:41 | logout clears the session; setCredentials sets user and token; storage is mirrored only when the store persists, and then exactly the keys `token` and `user` are written or removed; every other key keeps its value |
| `ProtectedRoute.Guard` | src/components/ProtectedRoute.tsx:9-22 | no user means going to `/login` with the current location as `from`; a user is let in exactly when no list is given or the role is in it; otherwise the user goes to `/` |
| `ProtectedRoute.LoggedOutIgnoresRoles` | src/components/ProtectedRoute.tsx:13-17 | without a user the decision does not depend on the roles |
| `ProtectedRoute.EmptyRolesSendEveryoneHome` | src/components/ProtectedRoute.tsx:17-18 | an empty list sends every logged-in user to `/` |
| `ProtectedRoute.WiderRolesAllowMore` | src/components/ProtectedRoute.tsx:17 | adding roles to the list never locks an admitted user out |
| `Types.IsAdmin` | src/components/Sidebar.tsx:13 | `user?.role === 'ADMIN'`: a user is present and their role is ADMIN (the same test as ProjectManagement.tsx:15) |
| `Decimal.Show` | src/store/userSlice.ts:7 | a number renders as a non-empty run of digits with no leading zero |
| `UserSlice.OrElse` | src/store/userSlice.ts:6 | a destructuring default: the given value, or the default when the property is missing |
| `UserSlice.UsersUrl` | src/store/userSlice.ts:7 | the template `/users?page=${page}&limit=${limit}&search=${search}`, with the search text unencoded |
| `UserSlice.GetUsersQuery` | src/store/userSlice.ts:6-7 | the URL reads back to the arguments, with the defaults page 1, limit 10 and an empty search for missing ones |
| `UserSlice.ParseUsersUrlRoundTrip` | src/store/userSlice.ts:7 | `/users?page=P&limit=L&search=S` parses back to (P, L, S) for every unencoded S |
| `UserSlice.UsersUrlInjective` | src/store/userSlice.ts:7 | different arguments never give the same URL |
| `UserSlice.TransformResponse` | src/store/userSlice.ts:8-11 | the result is an object with only `users` (the response's `data`) and `meta` (its `meta`); a null response throws |
| `UserSlice.RoleUpdate` | src/store/userSlice.ts:14-19 | a PATCH whose URL parses back to (id, role) and whose body holds only the role |
| `UserSlice.StatusUpdate` | src/store/userSlice.ts:22-27 | a PATCH whose URL parses back to (id, status) and whose body holds only the status |
| `UserSlice.InviteRequest` | src/store/userSlice.ts:30-35 | a POST to `/auth/invite` whose body is the argument, unchanged |
| `UserSlice.ParseUserUrlRoundTrip` | src/store/userSlice.ts:16 | `/users/{id}/role` and `/users/{id}/status` give back the id and the attribute for every id |
| `UserSlice.Provides` | src/store/userSlice.ts:12 | the list query provides the `User` tag, and a mutation provides none |
| `UserSlice.Invalidates` | src/store/userSlice.ts:20-36 | each of the three mutations invalidates the `User` tag (lines 20, 28 and 36), and the query invalidates none |
| `UserSlice.MutationsRefetchUsers` | src/store/userSlice.ts:12-36 | every mutation invalidates exactly the `User` tag the list query provides |
| `ProjectSlice.ProjectsUrl` | src/store/projectSlice.ts:8 | always starts with `/projects`; an empty search gives exactly `/projects`, a non-empty one `/projects?search=` plus the unencoded text |
| `ProjectSlice.ParseProjectsUrlRoundTrip` | src/store/projectSlice.ts:8 | every URL parses back to its search text |
| `ProjectSlice.ProjectsUrlInjective` | src/store/projectSlice.ts:8 | different searches never share a URL |
| `ProjectSlice.CreateProjectRequest` | src/store/projectSlice.ts:12-17 | a POST to `/projects` whose body is the project data, unchanged |
| `ProjectSlice.Provides` | src/store/projectSlice.ts:9 | the list query provides the `Project` tag, and the create mutation none |
| `ProjectSlice.Invalidates` | src/store/projectSlice.ts:18 | the create mutation invalidates the `Project` tag, and the list query none |
| `ProjectSlice.CreateRefetchesProjectsOnly` | src/store/projectSlice.ts:9-18 | creation invalidates the `Project` tag that the list provides; user and project endpoints share no tag |
| `Sidebar.MenuItems` | src/components/Sidebar.tsx:13-19 | always Overview `/` then Projects `/projects`; an admin gets exactly three items ending with `/users`, anyone else (nobody logged in included) exactly two |
| `Sidebar.IsActive` | src/components/Sidebar.tsx:21 | an item is active exactly when its path equals the pathname |
| `Sidebar.AtMostOneActive` | src/components/Sidebar.tsx:21 | an item is active by exact path equality, and no two items are active at once |
| `Sidebar.UsersLinkMatchesAdminGuard` | src/components/Sidebar.tsx:18 | the User Management link is shown exactly to the users that an admins-only guard admits |
| `Sidebar.SidebarState.constructor` | src/components/Sidebar.tsx:11 | the drawer starts closed |
| `Sidebar.SidebarState.Toggle` | src/components/Sidebar.tsx:22 | the menu button flips `isOpen` |
| `Sidebar.SidebarState.ClickOverlay` | src/components/Sidebar.tsx:39 | a click on the overlay closes the drawer |
| `Sidebar.SidebarState.ClickLink` | src/components/Sidebar.tsx:72 | a click on any menu link closes the drawer |
| `Sidebar.SidebarState.SignOut` | src/components/Sidebar.tsx:102 | sign-out dispatches `logout` and nothing else |
| `UserManagement.TotalPagesAsWritten` | src/pages/UserManagement.tsx:46 | as written: `data.data.meta.totalPages` when truthy, otherwise 1 |
| `UserManagement.DesktopRowsAsWritten` | src/pages/UserManagement.tsx:89 | as written: `data?.map`, which gives no rows for missing data and throws unless data is an array |
| `UserManagement.MapRows` | src/pages/UserManagement.tsx:89 | `v?.map(...)`: no rows for `undefined` or `null`, the elements of an array, and a TypeError for any other value |
| `UserManagement.MobileRowsAsWritten` | src/pages/UserManagement.tsx:140 | as written: `data?.data?.users?.map`, so no cards while that path is missing or null, the array's elements, and a TypeError for any other value there |
| `UserManagement.TotalPagesAsWrittenIsOne` | src/pages/UserManagement.tsx:46 | as written, the page count of any reshaped response reads as 1 |
| `UserManagement.TotalPages` | src/pages/UserManagement.tsx:46 | the page count read from the reshaped fields; it is always truthy, so never 0 |
| `UserManagement.TotalPagesFromResponse` | src/pages/UserManagement.tsx:46 | a truthy `meta.totalPages` of the response is the page count; otherwise it is 1 |
| `UserManagement.DesktopTableThrows` | src/pages/UserManagement.tsx:89 | as written, `data.map` is called on an object, which has no `map`, so rendering the table throws |
| `UserManagement.MobileCardsAsWrittenEmpty` | src/pages/UserManagement.tsx:140 | as written, the mobile list renders no cards, without an error, for every response |
| `UserManagement.UserRows` | src/pages/UserManagement.tsx:89 | the corrected reader for both layouts: `data?.users?.map(...)` over the reshaped fields |
| `UserManagement.UserRowsFromResponse` | src/pages/UserManagement.tsx:89 | the rows read from the reshaped fields are exactly the response's `data` array |
| `UserManagement.PrevPage` | src/pages/UserManagement.tsx:191-192 | Prev stays at page 1 and otherwise goes one page back |
| `UserManagement.NextPage` | src/pages/UserManagement.tsx:198-199 | Next stays once `page >= totalPages` and otherwise goes one page on |
| `UserManagement.PagingStaysInRange` | src/pages/UserManagement.tsx:191-199 | with the page count fixed, Prev and Next keep `1 <= page <= totalPages`, each moving one step when enabled |
| `UserManagement.ToggledStatus` | src/pages/UserManagement.tsx:119 | the toggle always gives the other status |
| `UserManagement.ToggleTwiceRestores` | src/pages/UserManagement.tsx:168 | toggling twice gives back the original status |
| `UserManagement.StatusToggleRequest` | src/pages/UserManagement.tsx:119 | the status button sends a PATCH to the row user's status URL with the other status |
| `UserManagement.RoleChangeRequest` | src/pages/UserManagement.tsx:108 | the role select sends a PATCH to the row user's role URL with the chosen role |
| `UserManagement.UserManagementPage.constructor` | src/pages/UserManagement.tsx:6-21 | page 1, empty search, modal closed, empty email and link, and invite role STAFF; the invariant `page >= 1` holds |
| `UserManagement.UserManagementPage.Query` | src/pages/UserManagement.tsx:8 | the list query URL reads back to the current page, limit 10 and the current search |
| `UserManagement.UserManagementPage.ShowsInviteForm` | src/pages/UserManagement.tsx:218 | the invite form is shown exactly while no link has been generated |
| `UserManagement.UserManagementPage.PressPrev` | src/pages/UserManagement.tsx:191-192 | the new page is `PrevPage` of the old one, and it stays at least 1 |
| `UserManagement.UserManagementPage.PressNext` | src/pages/UserManagement.tsx:198-199 | the new page is `NextPage` of the old one and the page count, and it stays at least 1 |
| `UserManagement.UserManagementPage.SetSearch` | src/pages/UserManagement.tsx:71 | the search becomes the typed text |
| `UserManagement.UserManagementPage.OpenInviteModal` | src/pages/UserManagement.tsx:56 | the invite modal opens |
| `UserManagement.UserManagementPage.SetInviteEmail` | src/pages/UserManagement.tsx:227 | the email becomes the typed text |
| `UserManagement.UserManagementPage.SetInviteRole` | src/pages/UserManagement.tsx:236 | the invite role becomes the selected one |
| `UserManagement.UserManagementPage.HandleInvite` | src/pages/UserManagement.tsx:23-31 | sends `{email, role}`; a success sets the link to the returned one; a failure leaves it unchanged |
| `UserManagement.UserManagementPage.CloseInviteModal` | src/pages/UserManagement.tsx:38-42 | closes the modal and clears link and email, so the form shows again; the role is kept |
| `ProjectManagement.ListQuery` | src/pages/ProjectManagement.tsx:9 | the page's list query is exactly `/projects`, which reads back to an empty search |
| `ProjectManagement.ShowsReadOnlyBanner` | src/pages/ProjectManagement.tsx:24 | the "Read Only Access" banner is shown to everyone who is not an admin |
| `ProjectManagement.ShowsActionsColumn` | src/pages/ProjectManagement.tsx:41 | the Actions column exists only for an admin |
| `ProjectManagement.BannerOrActions` | src/pages/ProjectManagement.tsx:15-41 | exactly one of the read-only banner and the actions column is shown, and the actions column only for role ADMIN |
| `ProjectManagement.Label` | src/pages/ProjectManagement.tsx:68 | DELETED (DEL on the cards) exactly when the project is deleted, otherwise its status |
| `ProjectManagement.RowActions` | src/pages/ProjectManagement.tsx:71-98 | no buttons for non-admins; for an admin, Edit and Delete on a live row and only Restore on a deleted one |
| `ProjectManagement.Press` | src/pages/ProjectManagement.tsx:80-93 | Delete is sent only when confirmed and carries just the id; Restore sends `{id, isDeleted: false, status: ACTIVE}`; Edit sends nothing |
| `ProjectManagement.Patched` | src/pages/ProjectManagement.tsx:93 | the project as the restore payload `{isDeleted, status}` describes it afterwards, other fields kept |
| `ProjectManagement.RestoreRevivesRow` | src/pages/ProjectManagement.tsx:93 | a restored row offers Edit and Delete again, shows ACTIVE and is back among the dashboard's active projects |
| `Dashboard.Active` | src/pages/Dashboard.tsx:32 | a project is kept exactly when it is in the list and not deleted |
| `Dashboard.ActiveProjects` | src/pages/Dashboard.tsx:32 | missing data gives the empty list, otherwise the filter of the list |
| `Dashboard.ActiveDistributes` | src/pages/Dashboard.tsx:32 | the filter works piecewise over concatenation, so the kept projects stay in their original order |
| `Dashboard.ActiveKeepsLiveLists` | src/pages/Dashboard.tsx:32 | a list with nothing deleted is returned whole |
| `Dashboard.ActiveIdempotent` | src/pages/Dashboard.tsx:32 | filtering twice is filtering once |
| `Dashboard.OverviewOf` | src/pages/Dashboard.tsx:72-99 | Total Projects is the number of active projects, and the empty state shows exactly when there are none |
| `Dashboard.DashboardPage.constructor` | src/pages/Dashboard.tsx:9-16 | empty search, modal closed, empty name and description |
| `Dashboard.DashboardPage.QueryUrl` | src/pages/Dashboard.tsx:10 | the projects query URL reads back to the search text, unchanged |
| `Dashboard.DashboardPage.SetSearch` | src/pages/Dashboard.tsx:51 | the search becomes the typed text |
| `Dashboard.DashboardPage.OpenModal` | src/pages/Dashboard.tsx:55 | the create modal opens |
| `Dashboard.DashboardPage.CancelModal` | src/pages/Dashboard.tsx:185 | Cancel closes the modal and keeps the fields |
| `Dashboard.DashboardPage.SetName` | src/pages/Dashboard.tsx:169 | the name becomes the typed text |
| `Dashboard.DashboardPage.SetDescription` | src/pages/Dashboard.tsx:179 | the description becomes the typed text |
| `Dashboard.DashboardPage.HandleCreateProject` | src/pages/Dashboard.tsx:18-28 | sends `{name, description}`; a success closes the modal and clears both fields; a failure leaves the modal and the fields as they were |

## Left out

- Concurrency: two requests that fail with 401 at the same time each issue their own refresh. The model follows one logical call at a time.
- Client.Run: fuel bounds how deeply refresh calls and replays nest, not how many requests are sent. The refresh and the replay of a first 401 each get one unit less. A call that needs deeper nesting ends `Rejected(Exhausted)`, and its enclosing call then logs out as after a failed refresh. This covers both calls the source never settles (every reply 401) and calls it does settle with more depth: with replies 401, then 200 with a token, then 200, a bound of 1 ends `Exhausted` where the source returns the replay's 200. `Client.FuelAdequateAll` shows that every result other than `Exhausted` is the one any larger bound gives.
- Client.Gateway.Request: replays the same `Config` object. axios replays a merged copy instead, but it carries the same url, header and `_retry` mark.
- Client.Run: does not model `JSON.parse` throwing on a malformed stored user. The source would log out with that error; the model keeps the user as the text it was parsed from.
- Client.Reply: a refresh reply whose `data.data` exists but has no `accessToken` is not modelled. The source would store `undefined` and send `Bearer undefined`; the model has only "token present" and "`data.data` missing".
- The axios transport, the base URL and credentialed cookies are not modelled. A reply is a success exactly when its status is 2xx, which is axios's default.
- The session reducer (`store/authSlice`) is not part of this model, so it is not known whether it writes browser storage. `Auth.Dispatch` takes this as the `persists` flag.
- UserManagement.UserManagementPage.PressNext: the page count is an integer input. A non-numeric `totalPages`, which JavaScript would compare as `NaN`, is not modelled.
- The page and limit arguments are non-negative integers, and `Json.JNum` holds an unbounded integer. JavaScript numbers are doubles: negative or fractional values, the loss of integer precision above 2^53, and the exponent form `${n}` takes from 1e21 on are not modelled by `Decimal.Show` or `Json.JNum`.
- Types.User: a session user is either missing or a full user with a role. After a refresh with no stored `user`, `src/api/client.ts:34` sets the session user to the parsed `{}`, which is truthy but has no role. `ProtectedRoute.Guard` would admit such a user where no role list is given and send them to `/` otherwise; `Option<User>` cannot express that value.
- The projects response is assumed to be an array of projects; its shape is not shown.
- The loading flags of the data hooks are presentation only: spinners, and buttons disabled while a mutation is in flight.
- `navigator.clipboard`, `alert` and `console` are browser calls. `window.confirm` is the boolean `confirmed` input of `ProjectManagement.Press`.
- `src/store/projectSlice.ts:24-28` does not export the update and delete hooks that `ProjectManagement.tsx:2` imports. Under ES modules, importing a name that a module does not export fails when the module is loaded (or at build time), before anything renders. The page's route is commented out in `App.tsx:18`, so the page is never loaded as written. The model keeps the rules of the page and treats the two mutations as the commands it would issue (`ProjectManagement.Command`).
- `Patched` describes only the fields of the restore command. What the backend does with a delete is not modelled.
- Routing is the router's job: navigation, the route table in `App.tsx`, and `AppLayout.tsx`, which only checks for a token.
- The login and register pages, the alert component, JSX markup, styles, icons and date formatting are presentation only or outside the modelled logic.

## Findings

| source | as written | input that shows it | evidently intended | confidence | as-written member | corrected member |
|---|---|---|---|---|---|---|
| src/pages/UserManagement.tsx:46 | `data?.data?.meta?.totalPages \|\| 1` reads a `data` member, but the reshaped response has only `users` and `meta` | response `{data: [], meta: {totalPages: 3}}`: the page count evaluates to 1, so once the table at line 89 no longer throws, Next would show disabled | `data?.meta?.totalPages \|\| 1` | not executed | `UserManagement.TotalPagesAsWrittenIsOne` | `UserManagement.TotalPagesFromResponse` |
| src/pages/UserManagement.tsx:89 | `data?.map(...)` is called on the `{users, meta}` object, which has no `map` | any response that loads, e.g. `{data: [], meta: {}}`: rendering the table throws a TypeError | `data?.users?.map(...)` | not executed | `UserManagement.DesktopTableThrows` | `UserManagement.UserRowsFromResponse` |
| src/pages/UserManagement.tsx:140 | the mobile cards read `data?.data?.users` | response `{data: [u], meta: {}}`: the mobile list evaluates to no cards, which shows once the table at line 89 no longer throws | `data?.users?.map(...)` | not executed | `UserManagement.MobileCardsAsWrittenEmpty` | `UserManagement.UserRowsFromResponse` |
