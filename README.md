# Session, admin guard, machine list and user endpoint of APP-GEST-MACHINE

A Dafny model of the parts of the machine-management dashboard that make
decisions:

- **The session provider** (`AuthContext`, src/contexts/AuthContext.tsx): the
  class `AuthProvider` holds `user`, `isLoading`, `isAuthenticated` and the
  browser's durable store (a `map<string, string>`, of which the keys
  `auth_token` and `user` are used). `CheckAuth`, `InitAuth`, `Login`,
  `Register` and `Logout` change them as the source does. Each call is atomic.
  The server's answer to `POST /login` and the random token suffix are
  parameters.
- **The stored user record** (`UserRecord`): a text encoding stands for
  `JSON.stringify` and `JSON.parse`. `Parse` is partial (None stands for a thrown
  SyntaxError, or a value the model's `User` cannot hold) and `ParseSerialize` proves that every user
  is read back unchanged. The text `null` parses to the JSON null value.
- **The admin route guard** (`AdminRoute`, src/routes/AdminRoute.tsx): a pure
  three-way decision (loading placeholder, redirect to `/unauthorized` with the
  requested location and `replace`, or the protected children). `Guard` reads
  the provider and has no `modifies` clause, so it cannot log in, log out or
  re-check the session.
- **The machine list** (`MachinesPage`, src/pages/machines/MachinesPage.tsx):
  the tab-and-search filter (order-preserving, ASCII case-insensitive substring
  search over four fields), the health colour thresholds, the status label and
  badge with their defaults, the summary counts, and the two-step delete
  confirmation as a class over `machineToDelete` and `deleteDialogOpen`.
- **The user endpoint** (`UsersApi`, python/app.py): `/signup` and `/login`
  over the `users` table, a sequence of rows with an auto-increment id. The
  class `UsersTable` keeps emails unique. A failing database call is an
  input whose text becomes the 500 answer.
- **The sign-in path** (`LoginFlow`): how the client reads the handler's
  answer, and the consequence that a user who logs in through this backend
  has no role and is never admitted by the admin guard.

Behaviour that follows the code rather than the intended design:

- An unauthenticated visitor is sent to `/unauthorized`, not to a login page.
- `checkAuth` never asks the server about the token; a locally present token is trusted.
- A stored user without a token is not cleared from the store. `checkAuth` sets `user := null` and leaves the store as it is.
- A token without a stored user makes `checkAuth` return false and change nothing.
- Only a stored user that fails to parse clears both keys.
- JavaScript truthiness decides presence: a key holding the empty string counts as absent.
- A stored user `null` yields `isAuthenticated` true with `user` null, and `checkAuth` returns true.
- `confirmDelete` does nothing when the remembered id is 0, because 0 is falsy.
- The page never sets a search query: `setSearchQuery` is declared but no search field is rendered, so `searchQuery` stays empty and the search branch never runs. The filter is modelled for any query, and `SetSearchQuery` is a transition the page as written never takes.
- The token is minted by the client (`demo_token_` plus a random suffix), not issued by the server.

## Model

| member | source | states |
|---|---|---|
| `UserRecord.Serialize` | src/contexts/AuthContext.tsx:90 | the stored text of a user is a non-empty object text, so it is truthy and never the text `null` |
| `UserRecord.ReadBodyEscape` | src/contexts/AuthContext.tsx:58 | reading back an escaped string returns the original text and leaves what follows |
| `UserRecord.Parse` | src/contexts/AuthContext.tsx:58 | the text `null` and only it parses to the JSON null value; a user is parsed only from an object text; the empty text does not parse |
| `UserRecord.ParseSerialize` | src/contexts/AuthContext.tsx:56-58 | parsing the stored text of any user gives back that same user |
| `AuthContext.Cleared` | src/contexts/AuthContext.tsx:122-124 | removing the session keys drops `auth_token` and `user` and keeps every other key and value |
| `AuthContext.LoggedIn` | src/contexts/AuthContext.tsx:89-90 | a successful login stores a token starting with `demo_token_` and the serialized user, and keeps every other key |
| `AuthContext.Classify` | src/contexts/AuthContext.tsx:41-62 | no truthy token iff NoToken; a token without a truthy stored user iff NoStoredUser; a token and a stored user that does not parse iff Corrupt; otherwise exactly the parsed value is restored (that user, or none for `null`) |
| `AuthContext.ClassifyAfterLogin` | src/contexts/AuthContext.tsx:56-60 | the store left by a successful login is read back by `checkAuth` as exactly the logged-in user |
| `AuthContext.ClassifyAfterClear` | src/contexts/AuthContext.tsx:41-47 | after the session keys are removed, `checkAuth` finds no token |
| `AuthContext.ClearedIdempotent` | src/contexts/AuthContext.tsx:122-128 | removing the session keys twice is the same as once, so `logout` is idempotent on the store |
| `AuthContext.LoginError` | src/contexts/AuthContext.tsx:85 | a refused login re-raises `data.error`, or `Login failed` when that is empty; a transport failure re-raises its own error |
| `AuthContext.AuthProvider.constructor` | src/contexts/AuthContext.tsx:25-27 | a freshly mounted provider has no user, is loading, is not authenticated, and sees the persisted store |
| `AuthContext.AuthProvider.CheckAuth` | src/contexts/AuthContext.tsx:38-71 | returns true iff there is a token and a stored user that parses; no token: user null, not authenticated, store kept; token but no stored user: nothing changes; unparseable user: both keys removed, user null, not authenticated; parsed user adopted otherwise; `isLoading` untouched |
| `AuthContext.AuthProvider.InitAuth` | src/contexts/AuthContext.tsx:29-36 | startup runs the `checkAuth` effect on the persisted store and then stops loading |
| `AuthContext.AuthProvider.Login` | src/contexts/AuthContext.tsx:73-102 | an accepted reply writes token and user, adopts the user and authenticates; any other reply leaves store, user and authentication as they were and re-raises the error; loading always ends false |
| `AuthContext.AuthProvider.Register` | src/contexts/AuthContext.tsx:107-120 | registration ends with loading false and never changes the store, the user or authentication |
| `AuthContext.AuthProvider.Logout` | src/contexts/AuthContext.tsx:122-128 | unconditionally removes both keys, sets user to null and authentication to false |
| `AuthContext.UseAuth` | src/contexts/AuthContext.tsx:145-151 | outside a provider `useAuth` fails with the missing-provider error; inside, it returns that provider |
| `AuthContext.LoginThenCheckAuth` | src/contexts/AuthContext.tsx:87-93 | after a successful login, `checkAuth` returns true with the same user |
| `AuthContext.FailedLoginThenCheckAuth` | src/contexts/AuthContext.tsx:83-98 | a failed login raises, and a following `checkAuth` answers as it would have on the untouched store |
| `AuthContext.LogoutThenCheckAuth` | src/contexts/AuthContext.tsx:122-128 | after `logout` (once or twice) the store is cleared and `checkAuth` returns false with no user |
| `AdminRoute.Decide` | src/routes/AdminRoute.tsx:8-17 | loading is shown iff `isLoading`; the children are rendered iff not loading, authenticated and the role is `admin`; every other case redirects to `/unauthorized` with the requested location as `from` and `replace` |
| `AdminRoute.NonAdminNeverAdmitted` | src/routes/AdminRoute.tsx:13-14 | a user without the `admin` role, including one without any role, is never admitted |
| `AdminRoute.Guard` | src/routes/AdminRoute.tsx:4-17 | the mounted guard decides from the provider's current state and modifies nothing |
| `AdminRoute.GuardAfterLogout` | src/routes/AdminRoute.tsx:13-14 | when not loading, right after `logout` the guard redirects to `/unauthorized` |
| `AdminRoute.GuardOnFreshStart` | src/routes/AdminRoute.tsx:8-14 | over an empty store, the guard shows loading before startup and redirects after it |
| `MachinesPage.Includes` | src/pages/machines/MachinesPage.tsx:213 | `includes` is true iff the needle occurs at some position of the text |
| `MachinesPage.Lower` | src/pages/machines/MachinesPage.tsx:213-216 | lower-casing keeps the length and lower-cases each character in place (ASCII letters only) |
| `MachinesPage.Keep` | src/pages/machines/MachinesPage.tsx:206-220 | a kept machine on a status tab has that status; with an empty query a machine is kept iff it passes the tab; with a query, a machine that passes the tab is kept iff the query matches one of its four fields |
| `MachinesPage.FilteredMachines` | src/pages/machines/MachinesPage.tsx:206-221 | every shown machine is in the list and passes the tab and the search; with a tab other than `all` every shown machine has that status |
| `MachinesPage.FilteredIsSubsequence` | src/pages/machines/MachinesPage.tsx:206-221 | the shown machines are a subsequence of the list, in list order |
| `MachinesPage.FilteredCounts` | src/pages/machines/MachinesPage.tsx:206-221 | each machine is shown as often as it is listed if it passes the tab and search, and never otherwise |
| `MachinesPage.FilteredMembership` | src/pages/machines/MachinesPage.tsx:207-217 | a listed machine is shown iff it passes the tab and either the query is empty or the lower-cased query occurs in its lower-cased name, description, serial number or maker |
| `MachinesPage.FilteredShowsAll` | src/pages/machines/MachinesPage.tsx:206-221 | tab `all` with an empty query shows the whole list unchanged |
| `MachinesPage.HealthColor` | src/pages/machines/MachinesPage.tsx:199-204 | green iff health is at least 90, blue iff 70 to 89, yellow iff 50 to 69, red iff below 50 |
| `MachinesPage.HealthColorMonotone` | src/pages/machines/MachinesPage.tsx:199-204 | more health never gives a worse colour |
| `MachinesPage.StatusLabel` | src/pages/machines/MachinesPage.tsx:184-197 | the four statuses get their fixed labels; any other status is returned unchanged |
| `MachinesPage.StatusLabelsDistinct` | src/pages/machines/MachinesPage.tsx:184-197 | the four known statuses have four different labels |
| `MachinesPage.StatusBadgeVariant` | src/pages/machines/MachinesPage.tsx:169-182 | the badge is `outline` iff the status is operational or unknown; secondary, warning and destructive for the other three |
| `MachinesPage.CountStatus` | src/pages/machines/MachinesPage.tsx:277 | a per-status count never exceeds the number of machines |
| `MachinesPage.CountAttention` | src/pages/machines/MachinesPage.tsx:293 | the attention count never exceeds the number of machines |
| `MachinesPage.AttentionIsSum` | src/pages/machines/MachinesPage.tsx:293-296 | the attention count equals the maintenance plus warning plus offline counts |
| `MachinesPage.CountsCoverTotal` | src/pages/machines/MachinesPage.tsx:265-293 | when every status is one of the four, operational plus attention equals the total |
| `MachinesPage.TabShowsStatusCount` | src/pages/machines/MachinesPage.tsx:206-209 | a status tab with an empty query shows exactly as many machines as that status counts |
| `MachinesPage.MachinesPageState.constructor` | src/pages/machines/MachinesPage.tsx:149-152 | the page starts with an empty query, tab `all`, the dialog closed and no machine to delete |
| `MachinesPage.MachinesPageState.Shown` | src/pages/machines/MachinesPage.tsx:206-221 | the machines shown for the current tab and query are a subsequence of the list |
| `MachinesPage.MachinesPageState.SetSearchQuery` | src/pages/machines/MachinesPage.tsx:149 | sets the query and nothing else |
| `MachinesPage.MachinesPageState.SetSelectedTab` | src/pages/machines/MachinesPage.tsx:302 | sets the tab and nothing else |
| `MachinesPage.MachinesPageState.HandleDeleteMachine` | src/pages/machines/MachinesPage.tsx:228-232 | remembers the machine's id and opens the dialog |
| `MachinesPage.MachinesPageState.SetDeleteDialogOpen` | src/pages/machines/MachinesPage.tsx:410 | the dialog's open-change sets the flag and keeps the remembered id |
| `MachinesPage.MachinesPageState.ConfirmDelete` | src/pages/machines/MachinesPage.tsx:234-240 | with a truthy remembered id, closes the dialog and forgets the id; otherwise changes nothing |
| `MachinesPage.DeleteAndConfirm` | src/pages/machines/MachinesPage.tsx:228-240 | asking to delete a machine and confirming closes the dialog and leaves the shown list unchanged |
| `UsersApi.FindByEmail` | python/app.py:30-31 | the lookup finds a row with that email, and finds none iff no row has it |
| `UsersApi.FoundIsOnly` | python/app.py:60-61 | with unique emails, the lookup returns the one row with that email |
| `UsersApi.UsersTable.Signup` | python/app.py:18-44 | a missing or empty field gives 400, a database error 500, a taken email 409, all with the table unchanged; otherwise exactly one row (next id, name, email, password) is appended with 201; emails stay unique |
| `UsersApi.UsersTable.Login` | python/app.py:49-80 | a missing or empty field gives 400, a database error 500; otherwise 200 iff a row has that email and that password, answering its id, name and email and no role; an unknown email and a wrong password give the same 401; the table is never modified |
| `UsersApi.SignupThenLogin` | python/app.py:36-73 | signing up with new, filled credentials and logging in with them succeeds with the new row's id |
| `LoginFlow.ToClientUser` | python/app.py:68-72 | the client's copy of a logged-in user has the decimal text of the handler's id, its name and email, and no role |
| `LoginFlow.ToReply` | src/contexts/AuthContext.tsx:83-87 | the client accepts exactly the responses with an ok status, taking the user from them; every other response is refused with the body's error, or with the empty error when the body has none |
| `LoginFlow.BackendUserNeverAdmin` | python/app.py:66-73 | a user who logged in through this handler is never admitted by the admin guard |
| `LoginFlow.SignIn` | src/contexts/AuthContext.tsx:77-93 | the whole sign-in succeeds iff both fields are non-empty, the database answers and the table holds the credentials; a success authenticates a user without a role, after which the guard redirects; a failure leaves the store as it was |

## Left out

- React rendering, JSX, icons (`getStatusIcon`), toast notifications, `console.error` and `useNavigate` (including `handleEditMachine`, which only navigates): user interface with no state to model.
- `fetch` and `response.json()`: the client's login takes the server's answer as a parameter (`LoginReply`); a thrown network or body error is `Unreachable`.
- `Math.random()` in the token: the suffix is a parameter of `Login`.
- The one-second `setTimeout` in `register`: it always resolves, so `Register` always succeeds.
- Overlapping asynchronous calls: each operation is atomic, so the transient `isLoading = true` inside `login` and `register` is not observable in the model.
- `JSON.stringify` and `JSON.parse`: a quoted-field encoding stands for them. Every stored text other than `null` that `Serialize` could not have produced counts as corrupt here. That includes `{}`, objects with missing or extra fields, a numeric id, and numbers, strings and arrays. The source's `JSON.parse` accepts any valid JSON value, and `checkAuth` then adopts it, authenticates and returns true; the model instead clears both keys and returns false.
- Unicode `toLowerCase`: only ASCII letters are lower-cased.
- The float percentage of operational machines (src/pages/machines/MachinesPage.tsx:280).
- The mock machine list and the recent-activity list: the machine list is a constructor parameter.
- The user id: the source types it as a string but the handler sends an integer; the client copy carries its decimal text.
- The MySQL connection: the table is a sequence of rows, and a database failure is an input that fails the first database call of a handler; a failure between insert and commit is not modelled.
- Flask request parsing: fields are optional strings; a body that is not JSON, or fields that are not strings, are not modelled.
- src/pages/machines/AddMachinePage.tsx, EditMachinePage.tsx, EditMachinePage.jsx and src/pages/maintenance/CreateTaskPage.tsx: form schemas of a validation library and submissions over the network.
- backend/app.py, python/models/machine_model.py, python/routes/machine_routes.py and python/models.py: SQL pass-through handlers.
- LoginFlow.SignIn: states the guard's answer only after a successful login, since after a failure it depends on whatever session was there before.
