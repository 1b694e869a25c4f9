# App store client: admin sign-in flow and catalog handlers

This project models the web client of a small app-store catalog. A public
page lists installable Android packages. An admin-only dashboard uploads and
deletes them. All data, files and sign-in are handled by a hosted backend.

The core of the model is the **admin sign-in flow**:

- `signIn` checks the password, then looks the email up in `admin_users`, and
  signs a non-admin out again.
- The login form turns the result into a cached `isAuthenticated` flag in
  `localStorage` and a navigation to `/admin`.
- The route guard first trusts that flag. It then overwrites the flag with
  whether the backend reports a live session.
- Signing out ends the session, drops the flag and returns to `/login`.

Around it sit the catalog handlers: loading and searching the list, installing
an app, adding and deleting apps, the dashboard totals, the row-to-`App`
mapping, and the stored-file name built from the uploaded file's extension.

How the model is built:

- Every request to the backend is one atomic step. What the backend answers is
  a parameter of type `Outcomes.Answer`: a `data` payload, an `error` payload,
  or an exception from the client library.
- `Backend.Client` stands for the backend client. Its ghost state is whether a
  session is live, whose session it is, and the log of every request sent
  (`calls`). Contracts say which requests a handler sends, and in what order.
- An `async` function settles as an `Outcomes.Completion`: it returns a value
  or throws.
- `Browser.Window` holds the app's own `localStorage` keys as a map, and the
  router's current path. The backend client's persisted session entry is
  not in that map. It is `Backend.Client.sessionLive`.
- React state becomes fields of a class per component: `Login.LoginForm`,
  `Gate.PrivateRoute`, `Dashboard.AdminDashboard` and `Home.HomePage`. Each
  handler is a method whose contract gives the new state.
- Pure selections are functions with lemmas about them: the mapping, the
  totals, `find`, the search filter, the extension and the route table.

Things the model makes visible:

- If the admin lookup throws after the password check succeeded, `signIn`
  returns `false` without signing out. The new session stays live
  (`Api.SignIn`, sixth ensures).
- If the remote sign-out throws, `handleSignOut` stops before it removes the
  flag or navigates (`Dashboard.AdminDashboard.SignOut`).
- `signIn` never rejects, but storing the flag inside the same `try` can throw
  when `localStorage` is full or blocked. The form then shows the "try again"
  message, stays on /login without a flag, and leaves the admin's session live
  (`Login.LoginForm.Submit`, `Scenarios.StorageRefusesFlag`).
- The router ignores letter case and trailing slashes, so "/ADMIN" and
  "/admin/" also reach the guarded dashboard (`Gate.RouteTable`,
  `Gate.AdminRouteVariants`).

## Model

| member | source | states |
|---|---|---|
| `Rows.ToApp` | src/lib/api.ts:23-27 | the app carries every column of the row, with `icon` = icon_url and `apkUrl` = apk_url |
| `Rows.ToApps` | src/lib/api.ts:37-41 | mapping a list keeps its length and order and maps element i from row i |
| `Rows.ToAppRoundTrip` | src/lib/api.ts:23-27 | reading the columns back from the mapped app gives the original row (nothing is lost) |
| `Rows.CarriesDeterminesApp` | src/lib/api.ts:23-27 | any app carrying a row's columns is the mapped app: the mapping is unique |
| `Rows.ToAppsAppend` | src/lib/api.ts:23-27 | the list mapping commutes with concatenation (each row is mapped on its own) |
| `Text.Split` | src/lib/supabase.ts:10 | `split` gives at least one piece and no piece holds the separator |
| `Text.SplitThenJoin` | src/lib/supabase.ts:10 | joining the pieces of a split with the separator gives the string back |
| `Text.JoinThenSplit` | src/lib/supabase.ts:10 | splitting a join of separator-free pieces gives the pieces back |
| `Text.ContainsIffOccurs` | src/lib/api.ts:34 | the substring test used by the filter holds exactly when the query occurs at some index |
| `Text.LowerIsLowerCase` | src/lib/api.ts:34 | lower-casing leaves no upper-case ASCII letter and is idempotent |
| `Text.QueryCaseIrrelevant` | src/lib/api.ts:34 | the case-insensitive match does not depend on the case of the query |
| `Backend.Client.SignInWithPassword` | src/lib/api.ts:89-93 | the password request is logged; a data answer opens a session for that email; otherwise the session is as it was |
| `Backend.Client.SignOut` | src/lib/api.ts:120-122 | the sign-out request is logged; a data answer ends the session |
| `Supabase.Extension` | src/lib/supabase.ts:10 | the extension never holds a dot |
| `Supabase.ExtensionAfterLastDot` | src/lib/supabase.ts:10 | the extension holds no dot; it is the whole name when the name has no dot, else exactly the text after the last dot |
| `Supabase.StorageName` | src/lib/supabase.ts:11 | the stored name is the generated prefix, then a dot, then exactly the file's extension, which holds no dot |
| `Supabase.StorageNameKeepsExtension` | src/lib/supabase.ts:11 | the stored name ends with "." and the extension, and its own extension equals the file's |
| `Supabase.UploadFile` | src/lib/supabase.ts:9-23 | the upload is sent under the generated name; an error is thrown and gives no URL; on success the URL is the public URL of the same bucket and name |
| `Api.GetApps` | src/lib/api.ts:16-28 | one select request; a data answer gives the mapped rows; an error or exception is thrown and gives no list |
| `Api.Matches` | src/lib/api.ts:34 | a row matches exactly when the lower-cased query occurs at some position of the lower-cased name or of the lower-cased version; the empty query matches every row |
| `Api.Select` | src/lib/api.ts:34 | a row is selected iff it is in the table and its name or version contains the query, ignoring case (OR of the two) |
| `Api.EmptyQuerySelectsAll` | src/lib/api.ts:34 | the empty query selects the whole table, in order |
| `Api.SelectAppend` | src/lib/api.ts:31-34 | selection keeps table order: selecting from two tables put together selects from the first, then from the second |
| `Api.SelectIdempotent` | src/lib/api.ts:34 | filtering the results again with the same query changes nothing |
| `Api.SearchApps` | src/lib/api.ts:30-42 | one search request carrying the query; a data answer gives the mapped rows; an error or exception is thrown |
| `Api.SearchShowsExactlyMatches` | src/lib/api.ts:30-42 | when the backend answers with the selected rows, every app shown matches the query and every matching row is shown |
| `Api.AddApp` | src/lib/api.ts:44-73 | the icon is uploaded before the package, and the insert comes after both; the inserted record has the given name, version and description, both public URLs and 0 downloads; any failure is thrown and stops the sequence |
| `Api.DeleteApp` | src/lib/api.ts:75-79 | one delete request for the id; an error is thrown |
| `Api.IncrementDownload` | src/lib/api.ts:81-84 | one `increment_downloads` call for the id; an error is thrown |
| `Api.SignIn` | src/lib/api.ts:86-118 | never rejects; returns true iff the password check answered data and the admin lookup found a row. A failed password check sends no lookup and leaves the session. A non-admin is signed out before false is returned, and the session ends iff that sign-out succeeds. A thrown lookup skips the sign-out and leaves the session live |
| `Api.SignOut` | src/lib/api.ts:120-122 | one sign-out request; the session ends iff it succeeds; the error answer is ignored and only an exception rejects |
| `Browser.Window.GetItem` | src/components/auth/LoginForm.tsx:19 | a value is read exactly when the key is stored, and it is the stored value; a missing key reads as null |
| `Browser.Window.SetItem` | src/components/auth/LoginForm.tsx:38 | storing either writes the key and returns, or throws and leaves the storage as it was |
| `Browser.Window.RemoveItem` | src/components/admin/AdminDashboard.tsx:40 | the key is removed and every other key keeps its value |
| `Browser.Window.Navigate` | src/components/admin/AdminDashboard.tsx:41 | the current path becomes the target |
| `Browser.FlagReadsBack` | src/App.tsx:10-21 | a flag written with `toString()` and read back with `=== "true"` gives the same boolean |
| `Login.React` | src/components/auth/LoginForm.tsx:35-45 | once the `try` block settles, only a resolved `true` shows nothing more; a resolved `false` and a throw (from `signIn` or from storing the flag) show two different non-empty messages, neither of them the empty-field message |
| `Login.LoginForm.constructor` | src/components/auth/LoginForm.tsx:12-15 | empty fields, no error, not loading |
| `Login.LoginForm.SetEmail` | src/components/auth/LoginForm.tsx:71 | the email field takes the typed value |
| `Login.LoginForm.SetPassword` | src/components/auth/LoginForm.tsx:81 | the password field takes the typed value |
| `Login.LoginForm.Mount` | src/components/auth/LoginForm.tsx:18-22 | a stored flag equal to "true" navigates to /admin; otherwise the location is unchanged |
| `Login.LoginForm.Submit` | src/components/auth/LoginForm.tsx:24-49 | an empty field sets the empty-field message and sends no request. Otherwise the requests sent are exactly those of `signIn`, case by case, with the session each leaves (a failed password check leaves the session as it was). A confirmed admin whose flag is stored clears the error, sets the flag to "true" and navigates to /admin. If storing the flag throws, the retry message is shown and the flag and location are untouched. Every other outcome shows the rejection message and leaves the flag and the location alone. Only a confirmed admin writes "true". `isLoading` ends false on every path |
| `Gate.SessionObserved` | src/App.tsx:16-19 | a session is observed exactly when the check answers with a session; an error answer carries a null session |
| `Gate.PrivateRoute.constructor` | src/App.tsx:10-12 | the initial state is true exactly when the stored flag is the string "true" |
| `Gate.PrivateRoute.Render` | src/App.tsx:26 | the children are rendered iff the state is true; otherwise the guard redirects to /login |
| `Gate.PrivateRoute.CheckAuth` | src/App.tsx:14-24 | after a settled session check, the state equals "a session was returned" and the stored flag is "true" or "false" in agreement with it; if storing throws, the state is still set but the flag is as before and the check rejects; a rejected session check updates neither |
| `Gate.StripTrailingSlashes` | src/App.tsx:42-55 | the result does not end in a slash and the input is the result followed by slashes only |
| `Gate.StripAfterSlashes` | src/App.tsx:42-55 | stripping a string that did not end in a slash, followed by any number of slashes, gives that string back |
| `Gate.RouteMatchesIffReaches` | src/App.tsx:42-55 | the router's match (strip trailing slashes of the lower-cased location, compare with the pattern) holds exactly when the location is the pattern in any letter case followed by any number of slashes |
| `Gate.Route` | src/App.tsx:42-55 | each page is rendered exactly when its own pattern matches the location (the patterns never overlap, so their order does not matter); any other location is replaced by / with `replace` |
| `Gate.RouteTable` | src/App.tsx:42-55 | the home page exactly at slashes alone, the login form exactly at /login and the dashboard behind the guard exactly at /admin, each in any letter case with any trailing slashes; every other location is replaced by /, which is not itself a redirect |
| `Gate.AdminRouteVariants` | src/App.tsx:45-52 | "/admin/" and "/ADMIN" reach the guarded dashboard |
| `Dashboard.FoldDownloads` | src/components/admin/AdminDashboard.tsx:154 | folding non-negative download counts never goes below the starting value |
| `Dashboard.FoldIsSum` | src/components/admin/AdminDashboard.tsx:154 | the `reduce` from an accumulator adds the sum of the download counts to it |
| `Dashboard.SumAppend` | src/components/admin/AdminDashboard.tsx:154 | the total of two lists together is the sum of their totals |
| `Dashboard.SumNotNegative` | src/components/admin/AdminDashboard.tsx:154 | non-negative download counts give a non-negative total |
| `Dashboard.SumCountsOneDownload` | src/components/admin/AdminDashboard.tsx:154 | one more download of one app raises the total by exactly one |
| `Dashboard.AdminDashboard.constructor` | src/components/admin/AdminDashboard.tsx:43-45 | empty list, dialog closed, not loading; both totals are 0 |
| `Dashboard.AdminDashboard.TotalDownloads` | src/components/admin/AdminDashboard.tsx:154 | the "Total Downloads" card is the sum of the download counts of the list |
| `Dashboard.AdminDashboard.SignOut` | src/components/admin/AdminDashboard.tsx:38-42 | sign-out is requested first and ends the session on a data answer (the session's user is unchanged); unless it throws, the flag key is then removed (and nothing else) and the location becomes /login; a thrown sign-out changes nothing in the browser |
| `Dashboard.AdminDashboard.SetAddDialogOpen` | src/components/admin/AdminDashboard.tsx:104 | the dialog's open state takes the given value |
| `Dashboard.AdminDashboard.LoadApps` | src/components/admin/AdminDashboard.tsx:51-58 | on success the list becomes the fetched list; on failure it is unchanged |
| `Dashboard.AdminDashboard.AddApp` | src/components/admin/AdminDashboard.tsx:60-84 | the requests sent are exactly the icon upload, the package upload and the insert of the record with both URLs and 0 downloads, stopping after the first that fails; a reload follows only a successful insert. On success the list becomes the reloaded list (kept on a failed reload) and the dialog closes; on failure the list and the dialog stay as they were; `isLoading` ends false |
| `Dashboard.AdminDashboard.DeleteApp` | src/components/admin/AdminDashboard.tsx:86-93 | after a successful delete the list is reloaded; a failed delete leaves the list unchanged |
| `Home.FirstIndexOf` | src/components/home.tsx:25 | the index of the first app with the id, or none exactly when no app has it |
| `Home.Find` | src/components/home.tsx:25 | nothing is found exactly when no app has the id; otherwise the app found is the first one with the id |
| `Home.DownloadFor` | src/components/home.tsx:26-29 | a download happens exactly when an app was found and its package URL is non-empty; it fetches that URL under a file name that starts with the app's name |
| `Home.InstallDownloadsFirstMatch` | src/components/home.tsx:25-29 | a download happens only for the first app with the id and a non-empty package URL; it uses that URL and the name followed by ".apk". No download happens exactly when no app has the id or the first match has no URL |
| `Home.DownloadNameEndsInApk` | src/components/home.tsx:29 | the download file name ends in ".apk" |
| `Home.HomePage.constructor` | src/components/home.tsx:7 | the list starts empty |
| `Home.HomePage.LoadApps` | src/components/home.tsx:13-16 | the list becomes exactly the fetched list; a failed fetch rejects and leaves the list |
| `Home.HomePage.Search` | src/components/home.tsx:18-21 | the list becomes exactly the search results; a failed search rejects and leaves the list |
| `Home.HomePage.Install` | src/components/home.tsx:23-34 | the download is counted before any lookup; a failed count rejects with no lookup or download; otherwise the download is the one for the first app with the id in the current list |
| `Scenarios.AdminSignsIn` | src/components/auth/LoginForm.tsx:24-49 | an admin with correct credentials ends with the flag "true", the location /admin, and a guard that renders the dashboard |
| `Scenarios.NonAdminIsRejected` | src/lib/api.ts:101-111 | correct credentials of a non-admin: the flag is never written, the rejection message is shown and no session is left |
| `Scenarios.StorageRefusesFlag` | src/components/auth/LoginForm.tsx:35-48 | an admin whose browser refuses to store the flag sees the retry message, stays on /login with no flag and is redirected by the guard, while the session is live |
| `Scenarios.StaleFlagRendersFirst` | src/App.tsx:10-26 | with a stale "true" flag and no session, the guard renders the children first and redirects only after the check, storing "false" |
| `Scenarios.SignOutTwice` | src/components/admin/AdminDashboard.tsx:38-42 | signing out twice settles normally both times; the flag is absent and the location is /login |

## Left out

- Rendering, styling, animation, dialogs and icons are left out. They are presentation only.
- The backend itself is left out. Its auth service, query builder, remote procedure and storage are foreign code. Each request's answer is a parameter. The model does not implement the backend.
- Row ordering by `created_at` is left out. So are the atomicity of `increment_downloads` and the escaping of `%`, `_` and `,` in the interpolated search query. The filter is modelled as a literal substring match.
- Text.Lower: case folding covers ASCII letters only. The backend's `ilike` folds by its locale.
- Backend.Client.SignInWithPassword: this is an assumption about the client library. A failed password sign-in is taken to leave an existing session as it was.
- Backend.Client.SignOut: this is an assumption about the client library. An error answer or an exception is taken to leave the session live.
- Rows.ToApp: the object spread also keeps the raw `icon_url` and `apk_url` properties on the app. No part of the client reads them, so the model's `App` leaves them out.
- `Math.random()` and `Date.now()` in the generated file name are left out. The whole prefix is an arbitrary parameter.
- `getPublicUrl` is a foreign computation. It is the parameter `urlOf`.
- Creating and clicking the download anchor is browser I/O. `Home.HomePage.Install` returns the anchor's `href` and file name instead.
- Async interleaving is left out. So is a sign-out in another tab while the guard's check is pending. Each `await` is one atomic step.
- The intermediate `isLoading = true` while a request is pending is not modelled. Only the state after each handler settles is modelled.
- `console.error` logging is left out.
- Browser.Window.storage: it holds only the app's own keys. The backend client also keeps its session in `localStorage`, under its own key, and writes or removes that entry when it signs in or out. The model keeps that entry as `Backend.Client.sessionLive`, so a window that is "unchanged" means the app's keys and the location.
- Rows.AppRow: `downloads` is an unbounded integer. JavaScript numbers lose integer precision above 2^53. Nothing in the client depends on that.
- `localStorage.getItem` and `removeItem` are taken never to throw. Only `setItem` can throw, when the value cannot be stored.
- Gate.Route: the router percent-decodes the location before it matches it. The model matches the location as given.
- The `tempo-routes` routes and the environment configuration are left out.
- `Dashboard.AdminDashboard.TotalApps` is the list length. It has no contract of its own. The constructor's contract uses it.
- The header, the app grid and the app card carry no logic of their own. They are not part of this model.
