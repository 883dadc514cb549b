# Task and project manager front end — verified model of its session and page logic

The application is a single-page React client for a REST service that
manages projects, tasks and team members behind a bearer-token session.
This Dafny project models the parts of it that decide something:

- **The session lifecycle.** The shared axios instance attaches the stored
  token as `Authorization: Bearer <token>` and forces a logout on a 401
  (`Http`). `AuthProvider` initialises the `isAuthenticated` flag and runs
  `login`, `logout` and `register` (`Auth`). `PrivateRoute` and `PublicRoute`
  decide between rendering and redirecting (`Guards`). `Lifecycle` joins
  them into one state machine whose events are full page loads, in-app
  navigation, following a guard's redirect, login, logout, register and
  API calls. A session is the browser's durable storage
  (token and user entries), the current path, the provider's flag and the
  last navigation target. A forced logout sets `window.location.href`, which
  is a full page load, so it is modelled as clearing storage, moving to
  /login and running `Init` again.
- **The pure helpers embedded in pages and services.** These are the
  HTTP-error message mapping (`ApiError`), the projects query URL
  (`ProjectService`), the task filter object and "clear filters"
  (`TasksPage`), the project status filter, description preview and
  create/edit dialog (`ProjectsPage`), the previous/next page buttons
  (`Pagination`), the dashboard counters (`Dashboard`), the task detail
  form (`TaskDetail`) and the badge classes (`TaskCard`).

JavaScript semantics the code depends on are written out explicitly:
- `if (token)` and `x || y` treat the empty string like an absent value (`Strings.Truthy`, `Strings.OrElse`).
- `split`, `substring` and `${n}` are modelled by `Strings.Split`, `Strings.Truncate` and `Strings.IntToDecimal`.
- `Array.prototype.filter` is `Seqs.Keep`.

Browser storage, the location and `navigate` are fields of immutable
records. Every operation is a pure function.

## Model

| member | source | states |
|---|---|---|
| Http.AttachToken | src/service/api.ts:8-14 | With a truthy stored token, the Authorization header becomes exactly "Bearer " + token and every other header, the verb, URL and body are unchanged. Without one, the request is returned untouched. |
| Http.AttachTokenPresentsStoredToken | src/service/api.ts:9-11 | Reading the bearer credential back from an intercepted request gives the stored token. With no token stored, it gives whatever the caller had set. |
| Http.Intercept | src/service/api.ts:17-30 | The outcome is always handed on unchanged, so successes pass through and errors are re-rejected, never swallowed. No side effect happens for a success, a non-401 error, a 401 on /login or /register, or a 401 with no truthy token. Otherwise a 401 clears both entries and loads /login. |
| Http.InterceptIdempotent | src/service/api.ts:20-27 | Delivering the same outcome again after a forced logout changes nothing and does not reload again. |
| Auth.Init | src/context/AuthContext.tsx:20-22 | On mount, isAuthenticated holds exactly when the stored token is truthy. The browser is untouched and no navigation has happened yet. |
| Auth.Login | src/context/AuthContext.tsx:25-31 | A rejected login leaves the session unchanged and re-throws the error. A successful one stores token and user, raises the flag and navigates to the literal placeholder '/TODO'. |
| Auth.Logout | src/context/AuthContext.tsx:33-38 | Both entries are removed, the flag is lowered and the app navigates to /login. |
| Auth.LogoutIdempotent | src/context/AuthContext.tsx:33-38 | Two logouts leave the same state as one. |
| Auth.Register | src/context/AuthContext.tsx:40-43 | Storage and the flag are never touched. Navigation to /login happens only on success; a failure re-throws with the session unchanged. |
| Guards.PrivateRoute | src/components/PrivateRoute.tsx:9-17 | Corrected guard, with `{ children }` destructured as PublicRoute.tsx:9 does. It renders its content exactly when authenticated and otherwise redirects to /login. |
| Guards.PrivateRouteAsWritten | src/components/PrivateRoute.tsx:9-17 | The guard as written redirects to /login exactly when not authenticated. Otherwise it hands React the props object as a child, which is a render error. |
| Guards.PrivateRouteAsWrittenNeverRenders | src/components/PrivateRoute.tsx:9-15 | The written guard never renders its content. It agrees with the corrected guard exactly for logged-out visitors, and gives a render error to logged-in ones. |
| Guards.PublicRoute | src/components/PublicRoute.tsx:9-17 | Renders its content exactly when not authenticated; otherwise it redirects to /dashboard. |
| Guards.GuardsDependOnlyOnFlag | src/components/PrivateRoute.tsx:10 | Two sessions with the same flag get the same decision from both guards. |
| Guards.ExactlyOneGuardRenders | src/components/PublicRoute.tsx:12-16 | With the corrected private guard, exactly one of the two guards renders its content in every session. With the guard as written, some guard renders content exactly when the visitor is logged out. |
| Lifecycle.Deliver | src/service/api.ts:17-30 | A success, a non-401 rejection, or any outcome received on /login or /register or without a truthy token leaves the session exactly as it was. A 401 received elsewhere with a truthy token reloads the tab as the fresh logged-out session on /login with empty storage. |
| Lifecycle.Step | src/context/AuthContext.tsx:20-43 | One transition: a full page load of an address, an in-app navigation, following the redirect of the private or public guard (src/components/PrivateRoute.tsx:12-14, src/components/PublicRoute.tsx:12-14), login, logout, register, or an API call through the interceptor of src/service/api.ts:17-30. A page load lands on its address with no navigation recorded. A navigation moves the tab and changes nothing else. Following the private guard sends a logged-out tab to /login, following the public guard sends a logged-in tab to /dashboard, and neither touches storage or the flag. Login and register post through the same `api` instance (src/service/authService.ts:6,15), so their rejections are delivered like any API call. Storage changes only by a successful login or by being cleared. The flag rises only on a successful login or on a page load that finds a truthy token. |
| Lifecycle.StepPreservesConsistent | src/context/AuthContext.tsx:20-43 | Every transition keeps both halves of the invariant: a truthy stored token implies isAuthenticated, and isAuthenticated implies a token entry is stored. The transitions are page loads, navigation, guard redirects, login, logout, register and API calls. |
| Lifecycle.RunPreservesConsistent | src/context/AuthContext.tsx:20-43 | Both halves of the invariant hold after any sequence of transitions. |
| Lifecycle.ReachableSessionsConsistent | src/context/AuthContext.tsx:20-22 | Within a single tab, every session reached from a page load satisfies both halves: truthy token ⇒ isAuthenticated ⇒ token entry stored. |
| Lifecycle.OnlyLoginAuthenticates | src/context/AuthContext.tsx:25-31 | From a consistent logged-out session, only a successful login raises the flag. |
| Lifecycle.RunAuthenticatesOnlyByLogin | src/context/AuthContext.tsx:20-43 | A run that takes a consistent logged-out session to a logged-in one contains a successful login. |
| Lifecycle.ForcedLogoutReinitialisesLoggedOut | src/service/api.ts:20-29 | After a forced 401 logout, the page reloads as a logged-out session on /login with empty storage. There the private guard redirects and the public guard renders, and the caller still receives the original error. |
| Lifecycle.UnauthorizedOnAuthPageIsInert | src/service/api.ts:22-23 | A rejected API call, login or registration received on /login or /register leaves the whole session unchanged. |
| Lifecycle.FailedLoginAwayFromAuthPagesLogsOut | src/service/api.ts:20-27 | A 401 login or registration failure away from /login and /register, with a truthy token stored, forces the same logout and reload as any other API call. |
| Lifecycle.AuthFailuresDeliveredLikeApiCalls | src/service/authService.ts:5-15 | A rejected login or registration produces exactly the session a rejected API call with the same error produces, because both post through the intercepted `api` instance. |
| Lifecycle.FollowGuardIdempotent | src/components/PrivateRoute.tsx:12-15 | Following the same guard's redirect a second time leaves the session where the first left it. |
| Lifecycle.StoredTokenSkipsLoginPage | src/components/PublicRoute.tsx:12-14 | A tab that loads /login with a truthy token stored mounts logged in, and the public guard moves it to /dashboard with storage untouched. |
| Lifecycle.LoggedOutSentToLogin | src/components/PrivateRoute.tsx:12-14 | A tab without a truthy token that loads any private route mounts logged out and is sent to /login, where the public guard renders the login form. |
| Lifecycle.LogoutTwiceIsLogoutOnce | src/context/AuthContext.tsx:33-38 | As events, two logouts equal one. |
| Lifecycle.EmptyTokenLogin | src/context/AuthContext.tsx:27-29 | A login that resolves with an empty token raises the flag while no credential will be sent. The next page load lowers the flag again. |
| ApiError.HandleApiError | src/lib/apiError.ts:3-43 | The message is never empty. 401, 403, 404 and 500 get fixed texts. 400, 409, 422 and every other status show a non-empty server message, or else that status's fallback. No response but a sent request gives the connectivity text. Neither gives the axios message or "Error al enviar la solicitud.". A non-axios error gives "Error inesperado.". |
| ApiError.ServerMessageShownIffNotFixed | src/lib/apiError.ts:12-29 | Two different server messages give the same text exactly when the status is 401, 403, 404 or 500. For every other status each message is shown as is. |
| ApiError.EmptyServerMessageIsAbsent | src/lib/apiError.ts:14 | An empty server message is treated exactly like a missing one. |
| ApiError.OtherServerErrorsNotFixed | src/lib/apiError.ts:27-28 | A 5xx other than 500 with no server message gets "Ha ocurrido un error inesperado.", not the server-error text. |
| ProjectService.ProjectsUrl | src/service/projectService.ts:5-14 | The URL starts with "/projects?" and always ends with "&search=" followed by the search text verbatim, even when that text is empty. |
| ProjectService.QueryFields | src/service/projectService.ts:11 | The query splits into the page field, then the limit field, then whatever the search field yields, in that fixed order. |
| ProjectService.ProjectsUrlRoundTrip | src/service/projectService.ts:11 | Parsing the query back yields (page, limit, search) if and only if the search text contains no '&'. |
| ProjectService.ProjectsUrlDefaults | src/service/projectService.ts:6-8 | Called without arguments, the URL is "/projects?page=1&limit=10&search=". |
| ProjectService.ProjectPath | src/service/projectService.ts:16-19 | The detail path is "/projects/" followed by the id. |
| ProjectService.ProjectPathRoundTrip | src/service/projectService.ts:17 | The id is recovered from its path, and distinct ids give distinct paths. |
| Pagination.ShowControls | src/pages/Tasks.tsx:308 | The controls are shown exactly when page 1 is a valid page whose next button is enabled, i.e. when there is more than one page. |
| Pagination.PrevPage | src/pages/Tasks.tsx:312 | The previous page is never below 1. It is p-1 when p > 1 and 1 otherwise. |
| Pagination.NextPage | src/pages/Tasks.tsx:322 | The next page never exceeds totalPages. It is p+1 below the last page and totalPages otherwise. |
| Pagination.NavigationStaysInRange | src/pages/Projects.tsx:220-236 | From a page in [1, totalPages], both buttons stay in [1, totalPages]. |
| Pagination.EnabledButtonsStepByOne | src/pages/Tasks.tsx:310-326 | An enabled button moves exactly one page, and previous and next undo each other. |
| TasksPage.BuildFilters | src/pages/Tasks.tsx:96-104 | page = currentPage and limit = 20 always. Each optional key is present iff its selection is non-empty and not 'all', and then it equals that selection. |
| TasksPage.HasActiveFilters | src/pages/Tasks.tsx:187-190 | The clear button is hidden exactly when every select box, with '' read as 'all', is 'all'. |
| TasksPage.ActiveFiltersIffOptionalKey | src/pages/Tasks.tsx:187-190 | The clear button shows iff the built filter has at least one optional key. |
| TasksPage.FiltersRoundTrip | src/pages/Tasks.tsx:101-104 | Reading selections back from a built filter gives the originals, with '' turned into 'all'. Every well-formed filter is rebuilt exactly from its own selections. |
| TasksPage.ClearFilters | src/pages/Tasks.tsx:179-185 | All four selections become 'all', the page becomes 1 and nothing else changes. So no filter is active, and the built filter holds only page 1 and limit 20. |
| TasksPage.SubmitCall | src/pages/Tasks.tsx:120-126 | The form data is sent as an update of the edited task's id when a task is being edited, and as a create otherwise, never both. |
| TasksPage.AfterSubmit | src/pages/Tasks.tsx:127-133 | Success closes the dialog, forgets the edited task and reloads. Failure keeps the dialog and toasts a non-empty message: the server's, or "Error al guardar la tarea". |
| TasksPage.SubmitAfterSave | src/pages/Tasks.tsx:120-133 | After a successful save, the next submission creates a new task. After a failed one, a retry targets the same task as before. |
| Seqs.Keep | src/pages/Projects.tsx:127 | The filter's result holds only matching elements. Every matching element keeps its multiplicity, and the result is a sub-multiset of the input. |
| ProjectsPage.FilterByStatus | src/pages/Projects.tsx:124-127 | 'all' returns the list unchanged. Otherwise every kept project has the selected status and no project with that status is dropped. |
| ProjectsPage.FilterByStatusOrderedAndIdempotent | src/pages/Projects.tsx:127 | The result is a subsequence of the list, so order is kept, and filtering again changes nothing. |
| ProjectsPage.UnknownStatusFilterKeepsNothing | src/pages/Projects.tsx:127 | A filter value that is neither 'all' nor a status spelling keeps no project. |
| Strings.Truncate | src/pages/Projects.tsx:197-198 | The description preview is the text itself when it has at most n characters. Otherwise it is its first n characters followed by "...". n is 100 on the project list and 80 on the project detail page. |
| ProjectsPage.DescriptionPreview | src/pages/Projects.tsx:197-198 | A description of at most 100 characters is shown whole. A longer one shows its first 100 characters followed by "...". |
| ProjectsPage.FetchProjectsUrlAsWritten | src/pages/Projects.tsx:53-57 | As written, the URL built is the query with page "[object Object]", limit "10" and an empty search, whatever the page and search are. |
| ProjectsPage.FetchAsWrittenIgnoresPageAndSearch | src/pages/Projects.tsx:53-57 | As written, the URL built is the same for every page and search text, and its page field is not a number. |
| ProjectsPage.FetchProjectsUrl | src/pages/Projects.tsx:53-57 | Corrected request: when the search text has no '&', it reads back as the page's own page, limit 10 and its search text. |
| ProjectsPage.HandleSearch | src/pages/Projects.tsx:67-71 | Submitting a search resets the page to 1 and keeps the search text, status filter and page count. |
| ProjectsPage.SearchRequestsFirstPage | src/pages/Projects.tsx:46-71 | With the corrected request, a search asks for page 1 of that search text (for a search without '&'). |
| ProjectsPage.SearchLeavesWrittenRequestUnchanged | src/pages/Projects.tsx:53-71 | With the request as written, a search with any text leaves the URL unchanged. |
| ProjectsPage.OpenCreateModal | src/pages/Projects.tsx:73-79 | The create dialog opens blank: empty name and description, status ACTIVE, nothing being edited. |
| ProjectsPage.OpenEditModal | src/pages/Projects.tsx:81-87 | The edit dialog opens with the project's name, description and status, and that project as the one being edited. |
| ProjectsPage.SubmitCall | src/pages/Projects.tsx:93-103 | The form fields are sent as an update of the edited project's id, or as a create when nothing is being edited. |
| ProjectsPage.UntouchedFormsRoundTrip | src/pages/Projects.tsx:73-103 | Saving an untouched edit dialog sends back exactly the project's own fields. An untouched create dialog sends a blank ACTIVE project. |
| Dashboard.ComputeStats | src/pages/Dashboard.tsx:33-42 | The counters are the sizes of the completed, pending and overdue task lists and the number of tasks. Consequently completed + pending = total and overdue ≤ pending. |
| Dashboard.StatsCountTheirTasks | src/pages/Dashboard.tsx:34-42 | A task is among the completed ones iff its status is COMPLETED, and among the pending ones iff it is not. It is among the overdue ones iff it is pending and its due date is past. |
| Dashboard.OverdueMeansPendingAndPast | src/pages/Dashboard.tsx:40-42 | A COMPLETED task is never counted as overdue. Every pending task whose due date is past is counted. |
| Dashboard.RecentProjects | src/pages/Dashboard.tsx:104 | At most 3 projects are shown. They are a prefix of the list: the first 3, or all of them when fewer. |
| TaskDetail.DueDateInput | src/pages/TaskDetail.tsx:58 | The form's due date is a prefix of dueDate that contains no 'T', and it stops either at the end or at the first 'T'. |
| TaskDetail.DueDateInputIdempotent | src/pages/TaskDetail.tsx:58 | On strings without 'T' the extraction is the identity, so applying it twice is applying it once. |
| TaskDetail.AssignedToInput | src/pages/TaskDetail.tsx:59 | The form field is '' exactly when assignedTo is absent or empty; otherwise it is assignedTo. |
| TaskDetail.AssignedToPayload | src/pages/TaskDetail.tsx:86 | On save, an empty field is sent as absent and any other value is sent as is. |
| TaskDetail.AssigneeRoundTrip | src/pages/TaskDetail.tsx:59-86 | Field and payload are inverse up to the empty string. |
| TaskDetail.InitForm | src/pages/TaskDetail.tsx:55-59 | The edit form starts from the task's title, description, priority spelling, the date part of its due date and its normalised assignee. |
| TaskDetail.SaveRequest | src/pages/TaskDetail.tsx:81-87 | The update carries the form's fields, with an empty assignee sent as absent. |
| TaskDetail.SaveWithoutEditsRoundTrip | src/pages/TaskDetail.tsx:55-87 | Saving without edits sends back the task's title, description and priority, the date part of its due date, and its assignee unless that was empty. |
| TaskDetail.FirstMemberWithId | src/pages/TaskDetail.tsx:126 | `find` returns the first member with the id, or nothing when no member has it. |
| TaskDetail.AssigneeName | src/pages/TaskDetail.tsx:126 | The label is the name of the first member whose id equals assignedTo. It is 'Sin asignar' when there is no assignee, no such member, or that member's name is empty. |
| TaskCard.PriorityColor | src/components/tasks/TaskCard.tsx:11-24 | URGENT maps to red, HIGH to orange, MEDIUM to yellow, LOW to green, and any other string to gray, so the map is total. |
| TaskCard.PriorityColorsDistinct | src/components/tasks/TaskCard.tsx:13-22 | The four priorities map to pairwise distinct classes. Gray marks exactly the strings that are not a priority. |
| TaskCard.StatusColor | src/components/tasks/TaskCard.tsx:26-37 | COMPLETED maps to green, IN_PROGRESS to blue, and TODO and any other string to gray. |
| TaskCard.StatusColorGrayIffNotStarted | src/components/tasks/TaskCard.tsx:32-35 | The class is gray exactly for TODO and unknown strings, and COMPLETED and IN_PROGRESS differ. |
| Types.ProjectStatusRoundTrip | src/types/index.ts:39 | Spelling and parsing a project status are mutually inverse. |
| Types.TaskStatusRoundTrip | src/types/index.ts:71 | Spelling and parsing a task status are mutually inverse. |
| Types.PriorityRoundTrip | src/types/index.ts:72 | Spelling and parsing a task priority are mutually inverse. |

## Left out

- Real I/O is replaced by fields of immutable records: the HTTP transport and base URL, localStorage, `window.location` and `navigate`. The model starts where a request has resolved or rejected.
- The JSON text of the stored user is not modelled. The user entry holds the user record itself.
- Asynchrony and promise ordering are not modelled. That covers `Promise.all`, the stale-response race between overlapping list fetches, and the extra fetch `handleSearch` makes before its page reset takes effect. These are concurrency concerns.
- Date parsing and locale formatting are not modelled. The dashboard's `new Date(task.dueDate) < new Date()` is the parameter `isPast`.
- JSX, styling and toasts are not modelled, except the toast text of a failed task save. The view-only pages and components are out: ProjectDetail, Team, Profile, Login, Register, TaskForm, TaskList and Navbar. ProjectDetail's description preview is `Strings.Truncate` with n = 80.
- The thin service wrappers (task, team and auth services) are not modelled. Login takes the token already renamed from the wire's `access_token`.
- The route table in src/App.tsx is not modelled. Which guard wraps the current path is the argument of `FollowGuard`, and where '/TODO' and '/dashboard' lead is outside the model.
- `useAuth` throwing outside its provider is React wiring and is not modelled.
- Delete, status-change and navigation handlers in Tasks.tsx, Projects.tsx and TaskDetail.tsx are one service call each, after a `confirm` dialog where there is one, and are not modelled.
- The `tasks` and `assignee` sub-records of `Project` and `Task`, and the `project` sub-record of `Task`, are carried but never inspected.
- ProjectService.ProjectsUrl: page and limit are exact integers rendered as plain decimals. A JavaScript number with a fraction, or NaN, renders differently in a template literal. An integer of magnitude 1e21 or more renders in exponent form ("1e+21"), and an integer beyond 2^53 is not held exactly by a JavaScript number, so its rendered digits can differ from the model's.
- Strings.Truncate: counts Unicode scalar values, while `substring` counts UTF-16 code units, so the two differ on characters outside the Basic Multilingual Plane. An undefined description (`description?.`) cannot occur, because the record types the description as a string.
- Types.ProjectStatusRoundTrip, Types.TaskStatusRoundTrip, Types.PriorityRoundTrip: records hold statuses and priorities as enumerations. A server value outside them is modelled only where the code takes a raw string: the status filter, the badge maps and the Tasks page selections.
- Lifecycle.ReachableSessionsConsistent: storage is private to one tab and nothing outside the run writes it. localStorage is shared by every tab of the origin, and the provider reads it only on mount (AuthContext.tsx:20-22). So a logout, forced logout or login in another tab is not modelled. After such a logout this tab keeps its flag, sends no credential and is never forced out. After such a login it becomes authenticated at its next page load without a login of its own, which `Lifecycle.RunAuthenticatesOnlyByLogin` and `Lifecycle.RunPreservesConsistent` do not cover.
- ApiError.HandleApiError: the server message is a string or absent. `data?.message` is untyped, so a non-string message, such as an array, would be returned as is. The "never empty" clause assumes a string. The same assumption underlies TasksPage.AfterSubmit's non-empty toast, since Tasks.tsx:133 shows the same expression.
- ProjectService.ProjectsUrlRoundTrip: the reader takes the raw query and splits it at '&' only. It neither percent-decodes, nor reads '+' as a space, nor drops a '#' fragment. A search containing '#', '+' or '%' is therefore read back verbatim here, though a browser and a standard query parser would alter it.
- ProjectsPage.FetchProjectsUrl: its read-back uses the same raw reader as ProjectService.ProjectsUrlRoundTrip, with the same limits on '#', '+' and '%'.
- The services default-import `api` (projectService.ts:1, taskService.ts:1), but api.ts:3 only has a named export. The model covers the URL each service builds; as written, no such request can be sent.
- The repository's own import and type inconsistencies are not reconciled. Tasks.tsx and TaskDetail.tsx:3 import named functions that the task service does not export (`getTaskById` does not exist at all), and Dashboard.tsx imports from a missing `../services` directory. Each page's logic is modelled as written; where the written code fails, the corrected member is named under Findings.

## Behaviour of the code worth knowing

- An empty search is still sent, as a trailing `search=` (src/service/projectService.ts:11; `ProjectService.ProjectsUrl`).
- Only status 500 gets the fixed server-error text. Any other 5xx shows the server's message, or else the generic "Ha ocurrido un error inesperado." (src/lib/apiError.ts:25-28; `ApiError.OtherServerErrorsNotFixed`).
- Within a single tab, the flag and the stored token agree in the form truthy token ⇒ isAuthenticated ⇒ token entry stored (src/context/AuthContext.tsx:20-31; `Lifecycle.Consistent`).
  - The chain does not close, because a login may store an empty token.
  - It then raises the flag, but no credential is sent (`Lifecycle.EmptyTokenLogin`).

## Findings

| source | as written | input that shows it | evidently intended | confidence | as-written member | corrected member |
|---|---|---|---|---|---|---|
| src/pages/Projects.tsx:53-57 | `fetchProjects` passes one object `{page, limit, search}` to `getProjects(page, limit, search)`, which takes positional arguments. The object is rendered as the page, and limit and search take their defaults. | Any page and search, e.g. page 2 and search "web": the URL built is "/projects?page=[object Object]&limit=10&search=". | Request the page's own page, limit 10 and its search text. | not executed; high | ProjectsPage.FetchAsWrittenIgnoresPageAndSearch | ProjectsPage.FetchProjectsUrl |
| src/components/PrivateRoute.tsx:9-15 | `function PrivateRoute(children : PrivateRouteProps)` binds the whole props object to `children`, and line 15 renders it as a child. React refuses a plain object as a child. | A logged-in visitor opening /hola, wrapped as at src/App.tsx:24-28: the guard renders `{children: <Hola/>}`, a render error. | Destructure `{ children }` as PublicRoute.tsx:9 does and render the page. | not executed; high | Guards.PrivateRouteAsWrittenNeverRenders | Guards.PrivateRoute |
