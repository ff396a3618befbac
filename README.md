# Self-service Kubernetes platform — verified model of its decision logic

The platform lets a company register, log in, and run pods (nginx, postgres,
redis, custom images) in its own Kubernetes namespace. There are three parts:

- a FastAPI backend whose `create_workspace` endpoint provisions one
  namespace and one nginx deployment per customer;
- a tenant React front end with a login page, a pod dashboard, a monitoring
  page, a layout shell, a theme switcher and shared hooks;
- an administrator React front end with a login page and a dashboard that
  lists and deletes companies and users.

This Dafny project models the rules those parts apply to the results of
their HTTP and Kubernetes calls. Every such call is an outcome parameter:
a success with its payload, or a failure whose optional response carries a
status code and a `detail`. The browser is one `Browser.Browser` object:

- `localStorage` as a map;
- the router's navigation history;
- the log of requests sent;
- the log of `window.alert` messages.

A page whose React state changes step by step is a class. Its handlers are
methods whose ensures give the new state of the page and of the browser for
each outcome they are handed. Pure
derivations are functions. The lemmas beside them state how they behave
over all inputs.

Modules, one per source file, plus two shared ones:

- `Http`: outcomes, `detail || fallback`, the bearer header.
- `Browser`: storage, navigation, requests and alerts.
- `Workspace`: backend/main.py.
- `Monitoring`: frontend/src/Monitoring.js.
- `Hooks`: frontend/src/hooks/index.js.
- `Layout`: frontend/src/components/layout/MainLayout.js, plus the routes of frontend/src/App.js.
- `ThemeSelector`: frontend/src/components/common/ThemeSelector.js.
- `ResourceBar`: frontend/src/components/common/ResourceBar.js, over `real`.
- `StatusBadge`: frontend/src/components/common/StatusBadge.js, with the table of frontend/src/theme.js.
- `AdminDashboard`: admin-frontend/src/AdminDashboard.js.
- `AdminLogin`: admin-frontend/src/Login.js.
- `TenantDashboard`: frontend/src/Dashboard.js.
- `TenantLogin`: frontend/src/Login.js.

Where the prose description of the system and the code differ, the model
follows the code. Examples:

- JavaScript's `||` treats an empty `detail` as missing.
- `create_workspace` ignores the requested `service_type`.
- The metrics chart looks colours up in Monitoring.js's own five-entry table,
  not in the theme's seven-entry one.

## Model

| member | source | states |
|---|---|---|
| Http.DetailOr | frontend/src/hooks/index.js:173 | a non-empty server detail is shown as is; otherwise the fixed fallback, so a non-empty fallback never yields an empty message |
| Http.BearerHeader | frontend/src/hooks/index.js:129-132 | the header is "Bearer " followed by the stored token, or by "null" when no token is stored |
| Http.BearerHeaderInjective | frontend/src/hooks/index.js:129-132 | two equal headers come from the same token, except that a token spelled "null" is indistinguishable from none |
| Browser.Browser.GetItem | frontend/src/hooks/index.js:69-70 | `getItem` returns the stored value exactly when the key is present |
| Browser.Browser.Path | frontend/src/components/layout/MainLayout.js:164 | the current pathname is the last navigation target, or the start page before any navigation |
| Browser.Browser.SetItem | frontend/src/hooks/index.js:86-87 | `setItem` updates only that key; history, requests and alerts are unchanged |
| Browser.Browser.RemoveItem | frontend/src/hooks/index.js:96-97 | `removeItem` deletes only that key |
| Browser.Browser.Navigate | frontend/src/Dashboard.js:60 | `navigate(path)` appends the path, which becomes the current pathname; storage is unchanged |
| Browser.Browser.Send | frontend/src/Dashboard.js:40-42 | issuing a request appends it to the request log and changes nothing else |
| Browser.Browser.Alert | frontend/src/Dashboard.js:73 | `alert` appends its message and changes nothing else |
| Workspace.LowerChar | backend/main.py:38 | ASCII upper-case letters map to their lower-case letter; every other character is unchanged |
| Workspace.Lower | backend/main.py:38 | `lower()` keeps the length and lowers each position |
| Workspace.ReplaceSpaces | backend/main.py:38 | `replace(" ", "-")` keeps the length, turns each space into '-', and keeps every other character |
| Workspace.Normalize | backend/main.py:38 | the normalised name keeps the length and has no space and no upper-case ASCII letter |
| Workspace.NormalizeIdempotent | backend/main.py:38 | normalising twice equals normalising once |
| Workspace.NormalFixedPoint | backend/main.py:38 | a name is left unchanged exactly when it already has no space and no upper-case letter |
| Workspace.NormalizeAt | backend/main.py:38 | position by position: a space becomes '-', an upper-case letter becomes its lower-case letter, and anything else stays |
| Workspace.NamespaceName | backend/main.py:39 | the namespace is "org-" followed by the normalised name |
| Workspace.DeploymentName | backend/main.py:52 | the deployment name is "nginx-" followed by the normalised name |
| Workspace.EquivalentNamesShareNamespace | backend/main.py:38-39 | two customer names get the same namespace, and the same deployment name, exactly when they agree after lower-casing and turning spaces into dashes |
| Workspace.BuildDeployment | backend/main.py:53-72 | the deployment has 1 replica; its selector equals its template labels `{app: nginx}`; it has one nginx:latest container on port 80 |
| Workspace.CreateWorkspace | backend/main.py:36-81 | the namespace call always comes first; the deployment call is made exactly when the namespace call succeeded or got 409; each status string and 500 detail follows the decision table |
| Workspace.CreateWorkspaceSucceedsIff | backend/main.py:41-81 | the endpoint returns a body exactly when both calls are tolerated; every error is a 500; a returned namespace is the derived one |
| Workspace.ServiceTypeIgnored | backend/main.py:32-81 | the requested service type never changes the calls or the response |
| Workspace.RepeatedRequestReportsExisting | backend/main.py:46-78 | when both objects already exist (two 409s), the answer is "Workspace already exists" for the same namespace |
| Monitoring.LastN | frontend/src/Monitoring.js:131 | `slice(-n)` keeps the last min(length, n) elements |
| Monitoring.AppendHistory | frontend/src/Monitoring.js:124-133 | the window holds 1 to 20 points, and the new point is last |
| Monitoring.AppendHistoryIsSuffix | frontend/src/Monitoring.js:131 | the update is a suffix of the old points plus the new one; below 20 points nothing is dropped |
| Monitoring.FullWindowSlides | frontend/src/Monitoring.js:131 | a full window drops exactly its oldest point |
| Monitoring.LastNAppend | frontend/src/Monitoring.js:131 | trimming to the last n, appending one point and trimming again keeps what one trim of the whole run keeps |
| Monitoring.HistoryIsLastN | frontend/src/Monitoring.js:124-133 | the history after a run of fetches equals `slice(-20)` of every point fetched, by induction on the run |
| Monitoring.HistoryKeepsMostRecent | frontend/src/Monitoring.js:124-133 | after any run of fetches the history is exactly the most recent min(k, 20) points, oldest first |
| Monitoring.NewPoint | frontend/src/Monitoring.js:125-130 | a chart point carries the summary's CPU, memory and pod totals |
| Monitoring.Truncate | frontend/src/Monitoring.js:203 | a name within the limit is unchanged; a longer one is its first `limit` characters plus "..." |
| Monitoring.PodResourceData | frontend/src/Monitoring.js:202-207 | one bar per pod, in order, with the truncated name, the full name and the pod's CPU and memory |
| Monitoring.ChartLabelShape | frontend/src/Monitoring.js:203-204 | a chart label is the full name of at most 15 characters, or 18 characters starting with the name's first 15; the full name is kept |
| Monitoring.TableName | frontend/src/Monitoring.js:805 | the table applies the same rule with limit 30 |
| Monitoring.BeforeFirst | frontend/src/Monitoring.js:810 | `split(sep)[0]` is a prefix without `sep`, followed in the input by `sep` when shorter than it |
| Monitoring.TypeLabel | frontend/src/Monitoring.js:810 | the type chip is a prefix of the type containing no '-', and the whole type when it has none |
| Monitoring.Capitalize | frontend/src/Monitoring.js:200 | only the first character is upper-cased (ASCII); the rest and the length are kept |
| Monitoring.StatusData | frontend/src/Monitoring.js:194-196 | the status pie keeps only positive counts |
| Monitoring.CategoryData | frontend/src/Monitoring.js:198-200 | the category bars keep only positive counts |
| Monitoring.StatusChartColor | frontend/src/Monitoring.js:84-90 | the page's status table colours exactly its five statuses, "Unknown" in grey, and nothing else |
| Monitoring.CategoryChartColor | frontend/src/Monitoring.js:92-98 | the page's category table colours exactly its five categories, "other" in grey, and nothing else |
| Monitoring.ChartColorsDistinct | frontend/src/Monitoring.js:84-98 | within each table different names get different colours |
| Monitoring.StatusDataAppend | frontend/src/Monitoring.js:194-196 | filtering distributes over concatenation, so the entries' order is kept |
| Monitoring.CategoryDataAppend | frontend/src/Monitoring.js:198-200 | the same holds for the category bars |
| Monitoring.StatusDataExact | frontend/src/Monitoring.js:194-196 | a slice is in the pie if and only if its entry is in the counts with a positive value |
| Monitoring.CategoryDataExact | frontend/src/Monitoring.js:198-200 | every positive category gets its bar, capitalised and coloured by its original name |
| Monitoring.CategoryDataSound | frontend/src/Monitoring.js:198-200 | every bar comes from a positive entry |
| Monitoring.ReplicaChip | frontend/src/Monitoring.js:918-923 | the chip is success if and only if ready equals desired replicas, and warning otherwise |
| Monitoring.MonitoringPage.constructor | frontend/src/Monitoring.js:101-104 | no data, loading, not refreshing, empty history |
| Monitoring.MonitoringPage.FetchMonitoringData | frontend/src/Monitoring.js:112-144 | one GET with the stored token; success stores the snapshot and appends a history point (at most 20 kept); a 401 navigates to "/"; loading and refreshing end false on every path |
| Monitoring.MonitoringPage.ShowsNoPods | frontend/src/Monitoring.js:865 | the empty-state row shows when there is no snapshot or its pod list is empty (a missing pod list counts as empty) |
| Hooks.Notification.constructor | frontend/src/hooks/index.js:227-232 | starts closed with empty message and title and severity "success" |
| Hooks.Notification.Show | frontend/src/hooks/index.js:234-236 | opens and replaces title, message and severity together |
| Hooks.Notification.Hide | frontend/src/hooks/index.js:238-240 | closes and keeps title, message and severity |
| Hooks.Notification.ShowSuccess | frontend/src/hooks/index.js:242-244 | shows with severity "success" |
| Hooks.Notification.ShowError | frontend/src/hooks/index.js:246-248 | shows with severity "error" |
| Hooks.Notification.ShowWarning | frontend/src/hooks/index.js:250-252 | shows with severity "warning" |
| Hooks.Notification.ShowInfo | frontend/src/hooks/index.js:254-256 | shows with severity "info" |
| Hooks.Auth.constructor | frontend/src/hooks/index.js:64-66 | not authenticated, no user, loading |
| Hooks.Auth.Restore | frontend/src/hooks/index.js:68-76 | with a non-empty token and company the session is restored for that company; otherwise nothing changes; loading ends false |
| Hooks.Auth.Login | frontend/src/hooks/index.js:78-93 | success stores token and company, authenticates and returns the company and admin flag; a failure rejects and changes nothing |
| Hooks.Auth.Logout | frontend/src/hooks/index.js:95-100 | removes both keys, leaves no session, and clears the flag and the user |
| Hooks.Mount | frontend/src/hooks/index.js:63-76 | a fresh hook is authenticated exactly when storage holds a session |
| Hooks.LoginThenRestore | frontend/src/hooks/index.js:68-92 | after a login with non-empty token and company, a reload restores the session |
| Hooks.AuthHeader | frontend/src/hooks/index.js:129-132 | the header carries the stored token, or "null" |
| Hooks.InitialValue | frontend/src/hooks/index.js:302-309 | the starting value is the parsed stored text when present and parseable, else `initialValue` |
| Hooks.StoredValue.constructor | frontend/src/hooks/index.js:301-309 | the hook starts from `InitialValue` |
| Hooks.StoredValue.SetValue | frontend/src/hooks/index.js:311-319 | a function argument is applied to the current value; the result is kept and stored as its JSON text |
| Hooks.StoredValueRoundTrip | frontend/src/hooks/index.js:302-319 | a stored value whose text parses back is what the hook starts from next time |
| Hooks.CreatePodPayload | frontend/src/hooks/index.js:200-203 | `custom_image` is the custom image for type "custom" and null otherwise |
| Hooks.RunAction | frontend/src/hooks/index.js:168-209 | success calls `onSuccess` with the fixed message when present; failure calls `onError` with the detail or the fallback, and the failure is rethrown |
| Hooks.DeletePod | frontend/src/hooks/index.js:168-176 | DELETE /pods/{name}: "Pod deleted successfully", or the detail or "Failed to delete pod" |
| Hooks.ViewLogs | frontend/src/hooks/index.js:178-186 | GET logs: no success report; the detail or "Failed to fetch logs" on failure |
| Hooks.ViewMetrics | frontend/src/hooks/index.js:188-196 | GET metrics: no success report; the detail or "Failed to fetch metrics" on failure |
| Hooks.CreatePod | frontend/src/hooks/index.js:198-209 | POST /pods with the payload rule and the stored token's auth header: "Pod created successfully", or the detail or "Failed to create pod" |
| Hooks.ErrorReportsPreferDetail | frontend/src/hooks/index.js:172-174 | a failed action always reports a non-empty error that prefers the server detail, and still rejects |
| Hooks.CustomImageOnlyForCustom | frontend/src/hooks/index.js:202 | a custom image is sent only with the "custom" type |
| Layout.ContentSidebarWidth | frontend/src/components/layout/MainLayout.js:65 | 0 on mobile, 60 when collapsed on desktop, 240 otherwise |
| Layout.DrawerContentWidth | frontend/src/components/layout/MainLayout.js:107 | 60 exactly when collapsed on desktop, so 240 on mobile even when collapsed |
| Layout.ContentClearsSidebar | frontend/src/components/layout/MainLayout.js:65-107 | on desktop the content offset equals the sidebar width; on mobile the offset is 0 and the drawer is wider |
| Layout.ActiveIndices | frontend/src/components/layout/MainLayout.js:163-164 | an item is active exactly when its path equals the pathname |
| Layout.AtMostOneActive | frontend/src/components/layout/MainLayout.js:68-79 | with distinct paths at most one item is active, and exactly one when the pathname is an item's path |
| Layout.NavItemsDistinct | frontend/src/components/layout/MainLayout.js:68-79 | the two nav paths are distinct |
| Layout.Toggled | frontend/src/components/layout/MainLayout.js:88-94 | on mobile only `mobileOpen` flips; on desktop only `collapsed` flips |
| Layout.Navigated | frontend/src/components/layout/MainLayout.js:96-101 | mobile closes the drawer; desktop changes nothing |
| Layout.ToggleTwiceRestores | frontend/src/components/layout/MainLayout.js:88-94 | two toggles in the same mode restore the state |
| Layout.ToggleEffectOnWidth | frontend/src/components/layout/MainLayout.js:65-107 | a desktop toggle switches the offset between 240 and 60; a mobile toggle leaves the drawer at 240 |
| Layout.Rendered | frontend/src/App.js:8-34 | "/" shows the login page; "/dashboard" and "/monitoring" show their page with a non-empty token and the login page without one; any other path renders nothing |
| Layout.PrivateScreensNeedToken | frontend/src/App.js:8-34 | a private page is shown exactly at its own path and only while a non-empty token is stored |
| Layout.LogoutAsWrittenShowsNothing | frontend/src/components/layout/MainLayout.js:85 | as written, logout lands on a path with no route |
| Layout.LogoutShowsLogin | frontend/src/App.js:18 | logging out to "/" shows the login page |
| Layout.MainLayout.constructor | frontend/src/components/layout/MainLayout.js:58-59 | the drawer starts closed and the sidebar expanded |
| Layout.MainLayout.HandleDrawerToggle | frontend/src/components/layout/MainLayout.js:88-94 | the new state is `Toggled` of the old one |
| Layout.MainLayout.HandleNavigation | frontend/src/components/layout/MainLayout.js:96-101 | navigates to the path; the new state is `Navigated` of the old one |
| Layout.MainLayout.HandleLogoutAsWritten | frontend/src/components/layout/MainLayout.js:82-86 | removes token and company and navigates to "/login" |
| Layout.MainLayout.HandleLogout | frontend/src/components/layout/MainLayout.js:82-86 | removes token and company and navigates to "/", where the login page renders |
| ThemeSelector.IndexOf | frontend/src/components/common/ThemeSelector.js:177 | `indexOf` is the first position of the key, or -1 exactly when the key is absent |
| ThemeSelector.NextThemeKey | frontend/src/components/common/ThemeSelector.js:175-179 | the next key is always one of the keys; an unknown key gives the first; an empty list gives none |
| ThemeSelector.IndexOfDistinct | frontend/src/components/common/ThemeSelector.js:177 | in a list without repeats a key is found at its own position |
| ThemeSelector.NextIndex | frontend/src/components/common/ThemeSelector.js:178 | for an `indexOf` result, the next index is in range: one more, or 0 after the last key |
| ThemeSelector.NextOfIndex | frontend/src/components/common/ThemeSelector.js:177-178 | with distinct keys, the key after the one at i is at i + 1, and the last key wraps to the first |
| ThemeSelector.NextOfIndexMod | frontend/src/components/common/ThemeSelector.js:177-178 | from index i the next key is at (i + 1) mod n |
| ThemeSelector.ClickStepsThrough | frontend/src/components/common/ThemeSelector.js:177-179 | with distinct keys one click moves every key to the one after it, the last to the first |
| ThemeSelector.IterateSteps | frontend/src/components/common/ThemeSelector.js:175-180 | repeating any such step m ≤ n times from index i reaches index i + m, wrapping once |
| ThemeSelector.CycledByIndex | frontend/src/components/common/ThemeSelector.js:175-180 | m ≤ n clicks from index i reach index i + m, wrapping once |
| ThemeSelector.CycleReturns | frontend/src/components/common/ThemeSelector.js:175-180 | n clicks bring a known key back to itself |
| ThemeSelector.UnknownKeyStartsAtFirst | frontend/src/components/common/ThemeSelector.js:177-178 | an unknown or undefined key cycles to the first key |
| ThemeSelector.CurrentOption | frontend/src/components/common/ThemeSelector.js:72 | `find` returns the first option carrying the key, or none exactly when no option carries it |
| ThemeSelector.CurrentIcon | frontend/src/components/common/ThemeSelector.js:73 | an unknown key shows the palette icon; otherwise the icon of an option carrying the key |
| ThemeSelector.SelectedIsUnique | frontend/src/components/common/ThemeSelector.js:118 | with distinct option keys at most one option is selected |
| ThemeSelector.SelectedMatchesIcon | frontend/src/components/common/ThemeSelector.js:72-73 | the selected option is the one found, and its icon is shown |
| ThemeSelector.ThemeSelectorState.constructor | frontend/src/components/common/ThemeSelector.js:55-56 | the menu starts closed; the key is the context's |
| ThemeSelector.ThemeSelectorState.HandleClick | frontend/src/components/common/ThemeSelector.js:59-61 | opens the menu at the target; the key is unchanged |
| ThemeSelector.ThemeSelectorState.HandleClose | frontend/src/components/common/ThemeSelector.js:63-65 | closes the menu; the key is unchanged |
| ThemeSelector.ThemeSelectorState.HandleThemeSelect | frontend/src/components/common/ThemeSelector.js:67-70 | sets the key and closes the menu |
| ThemeSelector.ThemeSelectorState.HandleCycleTheme | frontend/src/components/common/ThemeSelector.js:175-180 | sets the key to `NextThemeKey` of the current one; the menu is unchanged |
| ResourceBar.Percentage | frontend/src/components/common/ResourceBar.js:21 | 0 when max ≤ 0, and never above 100 |
| ResourceBar.PercentageInRange | frontend/src/components/common/ResourceBar.js:21 | for max > 0: at least 0 for value ≥ 0; value/max·100 up to max; 100 from max on |
| ResourceBar.NegativeValueNotClamped | frontend/src/components/common/ResourceBar.js:21 | a negative value shows a negative percentage (no lower clamp) |
| ResourceBar.PercentageMonotone | frontend/src/components/common/ResourceBar.js:21 | a larger value never shows a smaller percentage |
| ResourceBar.NamedColor | frontend/src/components/common/ResourceBar.js:27-29 | cpu, memory and primary colours by name |
| ResourceBar.CircleColor | frontend/src/components/common/ResourceBar.js:83-89 | error above 90, warning above 70 up to 90, otherwise the named colour (strict thresholds) |
| ResourceBar.BarColor | frontend/src/components/common/ResourceBar.js:23-30 | a colour starting with '#' is returned whatever the percentage; otherwise the same thresholds as the circle |
| ResourceBar.CircleAlarmMonotone | frontend/src/components/common/ResourceBar.js:83-89 | rising usage never makes the colour less alarming |
| ResourceBar.CircleUsesThemeColors | frontend/src/components/common/ResourceBar.js:83-89 | the circle has no '#' pass-through: it always shows one of the five theme colours |
| ResourceBar.BarHeight | frontend/src/components/common/ResourceBar.js:33 | 4 for small, 10 for large, 6 otherwise |
| ResourceBar.RenderBar | frontend/src/components/common/ResourceBar.js:21-33 | the bar combines percentage, colour and height; with max ≤ 0 a named colour never alarms |
| StatusBadge.StatusColor | frontend/src/components/common/StatusBadge.js:13 | a known status gets its table colour (frontend/src/theme.js:81-89), any other status the Unknown colour |
| StatusBadge.FailuresLookAlike | frontend/src/theme.js:81-89 | Failed, CrashLoopBackOff and Error share the error colour; an unlisted status looks like Unknown |
| StatusBadge.RenderBadge | frontend/src/components/common/StatusBadge.js:12-33 | label and colour from the status; a glow exactly when `showGlow`; no pulse exactly when Running |
| StatusBadge.RenderDot | frontend/src/components/common/StatusBadge.js:39-60 | the same colour lookup; a shadow of that colour; no blink exactly when Running |
| StatusBadge.BadgeAndDotAgree | frontend/src/components/common/StatusBadge.js:13-14 | badge and dot always agree on colour and on animating |
| AdminDashboard.FetchRequests | admin-frontend/src/AdminDashboard.js:58-62 | stats, companies and users GETs, all with the same bearer header |
| AdminDashboard.FetchFailureReport | admin-frontend/src/AdminDashboard.js:66-73 | an error snackbar that says "Session expired…" exactly on 401/403, and "Failed to fetch data" otherwise |
| AdminDashboard.IsAuthFailure | admin-frontend/src/AdminDashboard.js:68 | true exactly for a response with status 401 or 403; a request with no response is not one |
| AdminDashboard.DeleteRequest | admin-frontend/src/AdminDashboard.js:95-101 | a company is deleted by name, a user by id |
| AdminDashboard.DeleteRequestIdentifiesTarget | admin-frontend/src/AdminDashboard.js:95-101 | equal delete requests address the same kind of entity with the same key |
| AdminDashboard.DeletedMessage | admin-frontend/src/AdminDashboard.js:97-100 | the message is `Company "<name>" deleted successfully` or `User "<username>" deleted successfully` |
| AdminDashboard.DeletedMessageIdentifiesTarget | admin-frontend/src/AdminDashboard.js:97-100 | equal messages name the same kind of entity and the same name |
| AdminDashboard.DeleteReport | admin-frontend/src/AdminDashboard.js:97-104 | success reports the deleted entity; failure reports the detail or "Delete failed" as an error |
| AdminDashboard.FailedDeleteIsAnError | admin-frontend/src/AdminDashboard.js:104 | a failed delete is an error with a non-empty message, "Delete failed" when there is no detail |
| AdminDashboard.AdminDashboardPage.constructor | admin-frontend/src/AdminDashboard.js:44-53 | no data, loading, closed dialog, closed success snackbar, and the token as first rendered |
| AdminDashboard.AdminDashboardPage.ShowsSpinner | admin-frontend/src/AdminDashboard.js:156 | the full-page spinner shows while loading with no stats; it shows at first render and never after a fetch |
| AdminDashboard.AdminDashboardPage.HandleLogout | admin-frontend/src/AdminDashboard.js:87-90 | removes the admin token and navigates to "/" |
| AdminDashboard.AdminDashboardPage.FetchData | admin-frontend/src/AdminDashboard.js:55-77 | three GETs; success replaces stats, companies and users together, failure none of them; 401/403 also logs out; loading ends false |
| AdminDashboard.AdminDashboardPage.Mount | admin-frontend/src/AdminDashboard.js:79-85 | without a token: navigates to "/", issues no request, changes nothing else; with one: fetches once, with the data, snackbar, storage and history that `FetchData` gives for the outcome |
| AdminDashboard.AdminDashboardPage.OpenCompanyDelete | admin-frontend/src/AdminDashboard.js:360 | opens the dialog for that company; the rest is unchanged |
| AdminDashboard.AdminDashboardPage.OpenUserDelete | admin-frontend/src/AdminDashboard.js:426 | opens the dialog for that user; the rest is unchanged |
| AdminDashboard.AdminDashboardPage.CancelDelete | admin-frontend/src/AdminDashboard.js:446-478 | the dialog's close and its Cancel button reset it; nothing else changes |
| AdminDashboard.AdminDashboardPage.CloseSnackbar | admin-frontend/src/AdminDashboard.js:498 | only `open` becomes false; message and severity are kept |
| AdminDashboard.AdminDashboardPage.HandleDelete | admin-frontend/src/AdminDashboard.js:92-107 | DELETEs the target; success reports it and refetches, the refetch replacing the data or keeping it, and logging out on 401/403; failure reports the error and touches no data or storage; the dialog is reset on every path |
| AdminLogin.Decide | admin-frontend/src/Login.js:44-55 | admitted exactly for a reply with `is_admin`, carrying its token; denied for a non-admin reply; rejected with the detail or "Authentication failed" on failure |
| AdminLogin.ErrorAfter | admin-frontend/src/Login.js:36-55 | no error when admitted; the access-denied text when denied; the failure message when rejected |
| AdminLogin.RefusalsAreExplained | admin-frontend/src/Login.js:46-55 | a refused submit always leaves a non-empty error |
| AdminLogin.SubmitDisabled | admin-frontend/src/Login.js:186 | the button is enabled exactly when not loading and both fields are non-empty |
| AdminLogin.AdminLoginPage.constructor | admin-frontend/src/Login.js:27-31 | empty fields, no error, not loading |
| AdminLogin.AdminLoginPage.Edit | admin-frontend/src/Login.js:139-157 | the fields take the typed values; error and loading are kept |
| AdminLogin.AdminLoginPage.CanSubmit | admin-frontend/src/Login.js:186 | the page's submit button is enabled exactly when `SubmitDisabled` is false for its state |
| AdminLogin.AdminLoginPage.HandleSubmit | admin-frontend/src/Login.js:34-59 | posts the credentials; only an admin reply stores `admin_token` and navigates to "/dashboard"; otherwise storage and history are unchanged; loading ends false |
| TenantLogin.SubmitRequest | frontend/src/Login.js:29-42 | register mode posts username, password and company name to /register; login mode posts the credentials to /token |
| TenantLogin.CompanySentOnlyOnRegister | frontend/src/Login.js:29-42 | the company name affects the request only in register mode |
| TenantLogin.TenantLoginPage.constructor | frontend/src/Login.js:17-21 | empty fields, login mode, no error |
| TenantLogin.TenantLoginPage.Edit | frontend/src/Login.js:80-101 | the three fields take the typed values; mode and error are kept |
| TenantLogin.TenantLoginPage.ShowsCompanyField | frontend/src/Login.js:83 | the company field shows only in register mode |
| TenantLogin.TenantLoginPage.ToggleMode | frontend/src/Login.js:119 | flips `isRegistering` and nothing else |
| TenantLogin.TenantLoginPage.HandleSubmit | frontend/src/Login.js:24-50 | registration success switches to login mode with "Account created! Please login."; login success stores token and company and navigates to "/dashboard"; failure shows the detail or "Something went wrong" and writes nothing |
| TenantDashboard.IncludesIff | frontend/src/Dashboard.js:139 | the front-to-back search finds a substring exactly when it occurs somewhere |
| TenantDashboard.StatusChip | frontend/src/Dashboard.js:139 | success exactly when the status contains "Ready", warning otherwise |
| TenantDashboard.ReadyAnywhere | frontend/src/Dashboard.js:139 | "Ready" anywhere in the status counts |
| TenantDashboard.FetchRequest | frontend/src/Dashboard.js:40-42 | GET /my-deployments with the bearer header of the stored token |
| TenantDashboard.CreateRequest | frontend/src/Dashboard.js:65-68 | POST /pods with `service_type` equal to the selected type and the bearer header of the stored token |
| TenantDashboard.DeleteRequest | frontend/src/Dashboard.js:80-82 | DELETE /pods/{name} with the bearer header of the stored token |
| TenantDashboard.PodsAfter | frontend/src/Dashboard.js:43 | a fetch replaces the pods wholesale on success and keeps them otherwise |
| TenantDashboard.StorageAfter | frontend/src/Dashboard.js:45-47 | only a 401 removes token and company |
| TenantDashboard.HistoryAfter | frontend/src/Dashboard.js:57-61 | only a 401 navigates, to "/" |
| TenantDashboard.TenantDashboardPage.constructor | frontend/src/Dashboard.js:31-33 | no pods, dialog closed, service type "nginx" |
| TenantDashboard.TenantDashboardPage.ShowsEmptyState | frontend/src/Dashboard.js:168 | the empty-state row shows exactly when the pod list is empty |
| TenantDashboard.TenantDashboardPage.OpenCreate | frontend/src/Dashboard.js:121 | opens the dialog only |
| TenantDashboard.TenantDashboardPage.CloseCreate | frontend/src/Dashboard.js:177 | closes the dialog only |
| TenantDashboard.TenantDashboardPage.SelectServiceType | frontend/src/Dashboard.js:185 | sets the service type only |
| TenantDashboard.TenantDashboardPage.HandleLogout | frontend/src/Dashboard.js:57-61 | removes token and company and navigates to "/" |
| TenantDashboard.TenantDashboardPage.FetchPods | frontend/src/Dashboard.js:37-49 | GETs with the stored token; pods, storage and history follow `PodsAfter`, `StorageAfter` and `HistoryAfter` |
| TenantDashboard.TenantDashboardPage.HandleCreate | frontend/src/Dashboard.js:63-75 | posts the selected type; success closes the dialog and refetches; failure alerts "Failed to create pod" and leaves the dialog and pods as they were |
| TenantDashboard.TenantDashboardPage.HandleDelete | frontend/src/Dashboard.js:77-88 | declining sends nothing and changes nothing; success refetches; failure alerts "Failed to delete pod" |

## Left out

- Timers and polling: the 30-second and 5-second refresh intervals, `usePolling` and `useDebounce`. Each fetch is modelled as one call with its outcome.
- The network and the Kubernetes client, with its configuration loading: every call is an outcome parameter.
- A refetch that is started but not awaited is applied in order, before the handler's next statement. It touches no field that the statement touches.
- Floating point: `toFixed`, the total cost, the age floor, the storage ratio and the circle's circumference. ResourceBar arithmetic is over `real`.
- Locale time formatting: a history point's `time` is a parameter.
- Styling: MUI layout, recharts, and the theme object apart from its status colour table.
- Unicode case mapping: `lower()` and `toUpperCase()` are modelled on ASCII only.
- The `PrivateRoute` guards: they appear only as route context in `Layout.Rendered` (frontend/src/App.js), and the administrator app's routes are not part of this model.
- Theme keys: the key list and option list are parameters, because the theme module does not export them.
- `encodeURIComponent` of a company name: the endpoint holds the name itself.
- JSON encoding of request and response bodies; `str(e)` of an `ApiException` is its text.
- A `detail` that is not a string is not modelled.
- `STATUS_COLORS` lookups of inherited object properties such as "constructor" are not modelled.
- Errors other than `ApiException` in the backend are not modelled.
- Exceptions thrown by `localStorage` or `JSON.parse` inside `useLocalStorage` are not modelled; a parse failure is `None`.
- Stale React closures apart from the administrator token: `fetchData` captures the first render's header, and the model keeps that token for the page's lifetime.
- Whether an optional callback (`onSuccess?.`, `onError?.`) was supplied is a boolean parameter.
- The default `severity = 'success'` of `showNotification` (frontend/src/hooks/index.js:233): `Hooks.Notification.Show` takes the severity as an argument, and no page in this model calls the hook.
- The theme context provides neither `themeKey` nor `setThemeKey` (frontend/src/theme.js:425-430); the `ThemeSelectorState` fields stand for that state, which the source never supplies.
- Monitoring.Truncate: counts Dafny characters, where JavaScript's `substring` counts UTF-16 code units.
- The administrator login's show-password toggle, which only changes how the field is drawn.
- ThemeSelector.NextThemeKey: with an empty key list JavaScript produces `undefined`; the model returns None.

## Findings

| source | as written | input that shows it | evidently intended | confidence | as-written member | corrected member |
|---|---|---|---|---|---|---|
| frontend/src/components/layout/MainLayout.js:82-86 | logout removes the session and navigates to "/login" | any logout | the login page is at "/" (frontend/src/App.js:18), where the other pages' logout handlers navigate; "/login" matches no route, so nothing renders | medium, not executed | Layout.MainLayout.HandleLogoutAsWritten, Layout.LogoutAsWrittenShowsNothing | Layout.MainLayout.HandleLogout, Layout.LogoutShowsLogin |
