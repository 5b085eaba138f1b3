# grafana-snapshot-exporter, orchestration core

grafana-snapshot-exporter is a small HTTP service. It drives a headless Chrome
through chromedp to log in to Grafana, open a dashboard, create a local
snapshot through the Share dialog, and return the snapshot link. This project
models the deterministic logic of `main.go` that sits above the browser.

- **Task-list interpreter** (`driver.dfy`).
  - A chromedp task list runs in order and stops at the first failing step.
  - The browser is an oracle, `Browser = (history, action) -> Reply`. It answers each primitive given everything the tab has been sent before.
  - The two `chromedp.ActionFunc` closures of `main.go` are the tasks `SkipIfLoggedIn` and `FailIfLoginPage`.
  - Pure interpreter functions run a task list. `class Tab` holds the oracle and the tab's history (`trace`). Its loop methods are proved equal to those functions.
- **Login workflow** (`workflows.dfy`, `loginGrafanaTasks`). It sets the viewport, navigates to `{url}/login` and reads the location. When `path.Base` of the location is not `"login"` it stops with success. Otherwise it submits the credentials.
- **Snapshot workflow** (`workflows.dfy`, `createSnapshotTasks` and `createSnapshot`).
  - It navigates to the dashboard, waits and takes the screenshot, then checks the location for the login page (`ErrDashboardNeedLogin`).
  - It then runs the Share dialog steps. These include the 20-Backspace string built in a loop.
  - It reads `#snapshot-url-input` and takes `path.Base(url.Parse(v).Path)` as the key.
- **Handlers** (`handlers.dfy`). `CreateSnapshotHandler` retries once, with a relogin in between. `LoginAndCreateSnapshotHandler` logs in and then makes one attempt. A response is abstracted to a status and a body: the link, or a structured error.
- **String helpers.**
  - Go's `path.Base` (`go_path.dfy`).
  - The part of `net/url.Parse` that decides `URL.Path` (`go_url.dfy`).
  - The `fmt.Sprintf` URL builders, including the `%d` rendering of the time range (`format.dfy`).

Each handler is a pure function of the defaults, the bound request and the
browser oracle: the responses written, in order, and what the tab was sent.
The handler methods build a fresh `Tab`, as each request creates a new
chromedp context, and are proved equal to those functions.

The model keeps three behaviours of the code as written:

- A failed relogin is answered 500 without returning. The retry still runs and
  writes a second response (`ReloginFailureStillRetries`).
- The `/login_and_snapshot` link is built on the default Grafana URL, not on
  the request's (`LinkUsesDefaultURL`).
- The login and authentication checks apply `path.Base` to the raw location,
  while the key applies it to the parsed path. A login page reached with a
  query string that holds no '/' is therefore not recognised
  (`LoginPageWithQueryIsMissed`). A
  dashboard query ending in `/login` gives the dashboard URL the base "login"
  (`DashboardURLWithLoginQuery`). So when the browser reports that URL as
  its location, the attempt fails with `ErrDashboardNeedLogin`
  (`DashboardLoginQueryNeedsLogin`).

## Model

| member | source | states |
|---|---|---|
| Driver.IsNeedLogin | main.go:145 | `errors.Is(err, ErrDashboardNeedLogin)`: the error is NeedLogin itself, or NeedLogin wrapped by `%w` at any depth |
| Driver.IsLoginLocation | main.go:239-240 | a location is the login page exactly when `path.Base` of the raw location string is "login"; the same test is made at main.go:293 |
| Driver.RunActionsFrom | main.go:233-248 | runs primitives in order from a history, collecting the values Location and Value read; the first failing primitive ends the run with its step error, and it is the last step in the history (partners: RunActionsTrace, RunActionsDoneIff) |
| Driver.RunTask | main.go:230-298 | one task: a primitive; the login closure, which runs its probe, succeeds unless the location read is the login page and otherwise runs the submission; or the check closure, which runs its render steps and probe and fails with ErrDashboardNeedLogin on the login page; the closures read no value of their own (partner: RunTaskTrace) |
| Driver.RunTasksFrom | main.go:211-214 | `chromedp.Run` of a task list: the tasks in order, their values collected, stopping at the first error (partners: RunTasksTrace, RunTasksAppend, Tab.Run) |
| Driver.RunActionsTrace | main.go:244-248 | a run of primitives adds to the history exactly a prefix of its steps; on success it adds all of them, with the values read in order; a failure is a step error and includes the failing step |
| Driver.RunActionsAllOk | main.go:244-248 | when every primitive succeeds, the run is done with every value read and the whole list in the history |
| Driver.RunActionsFirstFailure | main.go:244-248 | the first failing primitive ends the run with its error; nothing after it is sent |
| Driver.RunActionsDoneIff | main.go:244-248 | a run of primitives succeeds if and only if every primitive succeeds |
| Driver.RunActionsAppend | main.go:211-214 | running xs + ys is running xs, then ys from where xs left off, unless xs failed |
| Driver.RunTaskTrace | main.go:268-298 | one task (a primitive or either closure) only extends the history; its only errors are step errors and ErrDashboardNeedLogin |
| Driver.RunTasksTrace | main.go:211-214 | a task list only extends the history, and fails only with a step error or ErrDashboardNeedLogin |
| Driver.RunTasksAppend | main.go:211-214 | running two concatenated task lists is running the first and then the second from its end state, unless the first failed |
| Driver.RunDoAll | main.go:299-318 | a list of primitive tasks runs exactly as the list of primitives |
| Driver.SkipIfLoggedInSkips | main.go:239-243 | when the probe succeeds and the location's base is not "login", the closure succeeds having sent only the probe |
| Driver.SkipIfLoggedInSubmits | main.go:244-248 | when the probe reads the login page, the closure's result is that of running the submission, with its error; when every submission step succeeds, the closure succeeds with the probe and the submission in the history |
| Driver.Tab.PerformAll | main.go:233-236 | the loop over primitives leaves the tab's history, and returns the outcome, that the interpreter function gives |
| Driver.Tab.PerformTask | main.go:230-249 | running one task, including either closure, on the tab agrees with the interpreter |
| Driver.Tab.Run | main.go:211-214 | chromedp.Run of a task list on the tab agrees with the interpreter |
| Workflows.LoginTasks | main.go:226-251 | loginGrafanaTasks: the 1920x1080 viewport, navigation to {url}/login, then the closure that waits for body and reads the location and, on the login page, waits for the user field, types the username and password, clicks submit and waits for the dashboard page (partners: LoginRunSteps, LoginRunAppends) |
| Workflows.LoginGrafana | main.go:226-251 | running loginGrafanaTasks on a tab gives the login run's outcome and history |
| Workflows.StepsThenSkip | main.go:227-249 | two primitives that read nothing, followed by the closure, run as the closure with those primitives at the head of its probe |
| Workflows.LoginRunSteps | main.go:226-251 | the login task list runs as one closure over the probe (viewport, /login, body wait, location) and the submission |
| Workflows.LoginSkippedWhenLoggedIn | main.go:239-243 | when the probe succeeds and the location's base is not "login", login succeeds; none of the username, the password or the submit click is sent |
| Workflows.DuplicateLogin | main_test.go:23-32 | on an authenticated session, logging in twice succeeds twice, and the tab sees the probe twice and nothing else |
| Workflows.LoginAfterLoginSkips | main_test.go:23-32 | whatever the first login did, when the probe after it finds an authenticated session, the second login succeeds having sent only the probe, with no keys typed and no click |
| Workflows.LoginSubmitsOnLoginPage | main.go:244-248 | on the login page, login is the submission run after the probe, with its error |
| Workflows.LoginCompletesOnLoginPage | main.go:244-248 | on the login page, when every submission step succeeds, login succeeds and the tab has seen every login step in order |
| Workflows.LoginSubmitStepFails | main.go:244-248 | on the login page, the first failing submission step ends login with that step's error, and nothing after it is sent |
| Workflows.LoginRunAppends | main.go:226-251 | whatever the browser does, login adds to the history a non-empty prefix of the login steps |
| Workflows.LoginPrefixCounts | main.go:227-229 | every non-empty prefix of the login steps sets the viewport once and never navigates to any page but /login |
| Workflows.SnapshotTasks | main.go:260-320 | createSnapshotTasks: the navigation to the dashboard URL, the check closure (5 s sleep, screenshot, body wait, location), then the panel waits and the Share dialog steps with the name field cleared by End, 20 Backspace keys and one more, ending with the wait for the URL field (partners: SnapshotRunSteps, AfterNavigationStaysOnPage, NameFieldCleared) |
| Workflows.MultiBackspace | main.go:261-264 | the loop builds exactly 20 Backspace characters |
| Workflows.CreateSnapshotTasks | main.go:260-320 | the loop followed by the list construction gives the snapshot task list |
| Workflows.SnapshotKey | main.go:217-221 | the key of a URL field value: the url.Parse error, or `path.Base` of the parsed path (partners: KeyOfSnapshotURL, KeyDropsQuery, EmptyURLFieldGivesDot) |
| Workflows.SnapshotRun | main.go:208-224 | createSnapshot: one `chromedp.Run` of the snapshot tasks and the read of `#snapshot-url-input`, then its key; an error of the run or of the parse gives the key "" (partners: SnapshotSucceedsIff, NeedLoginExactlyOnLoginPage, SnapshotRunAppends) |
| Workflows.KeyAttempt | main.go:212-223 | no error if and only if the run succeeded and the last value read parses as a URL; the key is then path.Base of its path; otherwise the key is "" and the error is the run's error or the URL error on that value |
| Workflows.CreateSnapshot | main.go:208-224 | createSnapshot on a tab returns the key and error of the snapshot run and leaves its history |
| Workflows.CheckedRunNeedLogin | main.go:293-296 | a run with the authentication check fails with ErrDashboardNeedLogin if and only if the steps before it succeed and read the login page; then nothing after is sent |
| Workflows.CheckedRunDone | main.go:268-298 | a checked run succeeds if and only if both halves succeed and the location is not the login page; it then has every step in its history |
| Workflows.CheckedRunAppends | main.go:260-320 | a checked run adds a prefix of its steps to the history, and at least the first one |
| Workflows.StepThenCheck | main.go:266-298 | the navigation followed by the check closure runs as one list of steps with the check at its end |
| Workflows.SnapshotRunSteps | main.go:211-214 | createSnapshot is the checked run of the steps up to the location read and the steps after it, ending with the read of the URL field |
| Workflows.NeedLoginExactlyOnLoginPage | main.go:293-296 | createSnapshot reports ErrDashboardNeedLogin if and only if the steps up to the location read succeed and the location's base is "login"; then none of the later steps is sent |
| Workflows.DashboardLoginQueryNeedsLogin | main.go:293-296 | when the browser reports the dashboard URL as its location and the query ends in "/login", the attempt fails with ErrDashboardNeedLogin |
| Workflows.SnapshotSucceedsIff | main.go:211-223 | createSnapshot succeeds if and only if every step succeeds, the location is not the login page and the URL field parses; the key is then path.Base of the parsed path and the tab has seen every step in order |
| Workflows.SnapshotRunAppends | main.go:260-320 | whatever the browser does, createSnapshot adds to the history a non-empty prefix of its steps |
| Workflows.AfterNavigationStaysOnPage | main.go:267-318 | after the dashboard navigation no step navigates or sets the viewport |
| Workflows.SnapshotPrefixCounts | main.go:266-318 | every non-empty prefix of the snapshot steps navigates to the dashboard once and never sets the viewport |
| Workflows.KeysBeforeAppend | main.go:307-311 | the keys sent before the name is typed add up across a concatenation of steps |
| Workflows.PanelKeysBefore | main.go:307-311 | in the Share dialog steps, the keys sent before the name is typed are End, the clearing string and one Backspace; the name is typed |
| Workflows.NameFieldCleared | main.go:308-311 | before the display name is typed, the workflow sends End and then exactly 21 Backspace keys, and it does type the name |
| Workflows.KeyOfSnapshotURL | main.go:217-221 | the key of a snapshot URL scheme://host/dashboard/snapshot/KEY is KEY |
| Workflows.LoginPageWithQueryIsMissed | main.go:293-294 | a login page reached with a query string that holds no '/' is not recognised by the raw-location check, although its parsed key is "login" |
| Workflows.LoginWithQueryKey | main.go:217-221 | the key of scheme://host/login?QUERY is "login" |
| Workflows.RawBaseKeepsQuery | main.go:239 | path.Base of a raw location .../login?QUERY is "login?QUERY" |
| Workflows.KeyDropsQuery | main.go:217-221 | the key of a URL with a query is its last path element without the query |
| Workflows.ParseElementWithQuery | main.go:217 | scheme://host/ELEM?QUERY parses to the path /ELEM |
| Workflows.EmptyURLFieldGivesDot | main.go:217-221 | an empty URL field gives the key "." and no error |
| Handlers.SnapshotHandlerRun | main.go:129-171 | the /snapshot handler: 500 when a default is unset, 400 on a binding error; otherwise one attempt on the default URL, answered with the link or a 500, and on ErrDashboardNeedLogin the relogin branch (partners: RetryIsBounded, SuccessCarriesKey, CreateSnapshotHandler) |
| Handlers.Relogin | main.go:145-162 | the relogin branch: login with the defaults on the same tab, a 500 "relogin error" response when it fails, then a second attempt answered with a 500 "retry create snapshot error" or the link (partners: ReloginResponses, ReloginAndRetry) |
| Handlers.LoginSnapshotHandlerRun | main.go:174-206 | the /login_and_snapshot handler: 400 on a binding error; login with the credentials of the request, a 500 when it fails; otherwise one attempt on the URL of the request, answered with a 500 or the link on the default URL (partners: LoginThenOneAttempt, LinkUsesDefaultURL) |
| Handlers.ReloginAndRetry | main.go:145-162 | the relogin branch on the handler's tab writes the responses of the relogin model and leaves its history |
| Handlers.CreateSnapshotHandler | main.go:129-171 | the handler writes the responses, and its tab is sent the actions, that the handler model gives |
| Handlers.LoginAndCreateSnapshotHandler | main.go:174-206 | the same for /login_and_snapshot |
| Handlers.ReloginResponses | main.go:145-162 | the relogin branch writes the relogin error (when there is one) and then the second attempt's response: its wrapped error or the link |
| Handlers.NotConfiguredOrUnbound | main.go:130-138 | with a default unset, the answer is a single 500 before any browser step; with the defaults set, an unbound body gets a single 400 before any browser step |
| Handlers.AttemptCounts | main.go:143 | one snapshot attempt extends the history, navigates to the dashboard once and never sets the viewport |
| Handlers.LoginCounts | main.go:150-151 | one login extends the history, sets the viewport once and never opens the dashboard |
| Handlers.RetryIsBounded | main.go:143-166 | the handler logs in again only after ErrDashboardNeedLogin; it then logs in exactly once and attempts exactly twice, and otherwise attempts once and never logs in; it writes one response, or two only when it retried |
| Handlers.OtherErrorsAreFinal | main.go:163-166 | any other first error is answered with one 500 carrying that error, and no login is tried |
| Handlers.SecondFailureIsFinal | main.go:157-162 | a failed second attempt, even with ErrDashboardNeedLogin again, ends the handler with a 500 carrying the wrapped error; nothing follows it, and every response is a 500 |
| Handlers.ReloginFailureStillRetries | main.go:150-157 | a failed relogin is answered 500 and the retry still runs; its outcome is a second response, and the dashboard is opened twice |
| Handlers.SuccessCarriesKey | main.go:168-170 | the last response is 200 if and only if the first attempt succeeded, or it failed with ErrDashboardNeedLogin and the second succeeded; the link is the default URL with that attempt's key |
| Handlers.LoginThenOneAttempt | main.go:188-202 | /login_and_snapshot logs in once, attempts only after a successful login and at most once, and writes exactly one response |
| Handlers.LinkUsesDefaultURL | main.go:203-205 | the /login_and_snapshot link is built on the default Grafana URL; it is 200 if and only if login and the attempt both succeed |
| Format.LoginURL | main.go:229 | `fmt.Sprintf("%s/login", url)` (partner: LoginURLIsLoginPage) |
| Format.DashboardURL | main.go:266 | `fmt.Sprintf("%s/d/%s/?from=%d&to=%d&%s", ...)` (partners: DashboardURLIsNotLoginURL, DashboardURLBase, DashboardURLWithLoginQuery) |
| Format.SnapshotLink | main.go:169 | `fmt.Sprintf("%s/dashboard/snapshot/%s", url, key)`, also built at main.go:204 (partner: KeyOfSnapshotURL) |
| Format.DecimalString | main.go:266 | `%d` of an integer: a minus sign for a negative one, then the digits of its magnitude (partners: DecimalRoundTrip, DecimalHasNoDelimiter) |
| Format.NatString | main.go:266 | %d of a natural number is a non-empty string of digits with no leading zero |
| Format.NatStringValue | main.go:266 | the digits of n read back as n |
| Format.DecimalRoundTrip | main.go:266 | %d of any integer, negative ones included, reads back as that integer |
| Format.DecimalHasNoDelimiter | main.go:266 | %d never renders '&', '/' or '#' |
| Format.LoginURLIsLoginPage | main.go:229 | the URL the login workflow opens, {url}/login, has base "login" |
| Format.DashboardURLIsNotLoginURL | main.go:266 | the dashboard URL is never the login URL of the same base URL |
| Format.DashboardURLBase | main.go:266 | with a slash-free query, the base of the dashboard URL is the "?from=..&to=..&query" element, which is never "login" |
| Format.DashboardURLWithLoginQuery | main.go:266 | a query ending in "/login" makes the dashboard URL's base "login" |
| GoPath.Base | main.go:239 | path.Base is never empty, and contains '/' only when it is "/" |
| GoPath.BaseOfLastElement | main.go:239 | the base of dir/ELEM, and of ELEM alone, is ELEM for a slash-free, non-empty ELEM |
| GoPath.BaseOfRootElement | main.go:221 | the base of /ELEM is ELEM |
| GoPath.BaseOfSlashes | main.go:221 | the base of "" is "." and the base of a path of slashes only is "/" |
| GoPath.BaseIgnoresTrailingSlash | main.go:239 | a trailing slash never changes the base of a non-empty path |
| GoPath.BaseIsElementIff | main.go:239-240 | the base is a given element if and only if the path, without trailing slashes, is that element or ends in "/" and that element |
| GoUrl.ParsePath | main.go:217 | `url.Parse(v).Path`: the fragment is cut off first; in the rest, a control character is an error, "*" is its own path, getScheme splits off the scheme (a ':' before any scheme character is an error), then the query is cut off; with a scheme, a rest not starting with '/' is opaque and leaves the path empty; without one, a colon in the first path segment is an error; an authority after "//" is skipped and what remains is percent-decoded; last, an invalid escape in the fragment is an error (partners: the lemmas below) |
| GoUrl.UnescapePlain | main.go:217 | a string without '%' decodes to itself |
| GoUrl.SchemeScan | main.go:217 | getScheme splits scheme:tail at the colon for a valid scheme |
| GoUrl.AuthorityThenPath | main.go:217 | scheme://host/path, before any query, gives the path |
| GoUrl.ParseAbsoluteURL | main.go:217 | an absolute URL without delimiters, escapes or control characters in its parts parses to exactly its path |
| GoUrl.ParseAbsoluteURLWithQuery | main.go:217 | the same URL with a query parses to the same path |
| GoUrl.ParseRejectsControl | main.go:217 | a control character before the first "#" makes url.Parse fail |
| GoUrl.FragmentIgnored | main.go:217 | a valid fragment never changes the parsed path |
| GoUrl.PlainPathHasNoDelimiter | main.go:217 | for any value without percent escapes, the parsed path holds no "?" and no "#": the query and the fragment never reach it |

## Left out

- The HTTP layer is not modelled: gin routing, the `APIKeyCheck` header comparison and `TraceIdMiddleware` (main.go:101-127). Binding the JSON body is a parameter, either the bound request or the binding error message; its validation rules are gin's.
- Process start-up is not modelled: `init`, the environment and `.env` loading, zap logging and the start-up login of `main` (main.go:40-108). These are configuration and I/O, and the defaults enter as a `Credentials` value.
- chromedp, the browser allocation (`createAllocContext`, main.go:322-332) and the effect of `EmulateViewport` are foreign code. They are the browser oracle; a new process and a new context are both a fresh `Tab`.
- The 30 s and 45 s context deadlines and cancellation are not modelled as time. A deadline that expires is an answer of the oracle: a failing step.
- The 5 s sleep and the screenshot are steps like any other. The `os.WriteFile` of the screenshot is file I/O and is left out; its failure is only logged and never fails the step, so leaving it out changes no outcome.
- Concurrency is not modelled: requests running side by side, and the cookies shared by tabs of the default browser. Each request is sequential; what a tab shares with others is part of the oracle's answers.
- `logAction` tasks are left out. They only log and always succeed.
- Error messages are structured `Error` values rather than the strings `err.Error()` renders. `fmt.Errorf("...: %w")` is `Wrapped`, and `errors.Is` is `IsNeedLogin`.
- `ErrDashboardNeedLogin` is declared outside the core; it is the `NeedLogin` error.
- `model.go`'s `CreateSnapshotRequest` and `LoginAndCreateSnapshotRequest` have no `Name` field, although main.go:143 and main.go:198 read `req.Name` from them. The model's `SnapshotRequest` carries the name, and `LoginSnapshotRequest` carries it in its `snapshot` field.
- gin's handling of a second `c.JSON` call on one request is not modelled. The model lists every response the handler writes, in order.
- GoUrl.ParsePath: models only the part of `url.Parse` that decides `URL.Path`. The host and user-information checks of `parseAuthority` are left out, so a URL Go rejects for a malformed host can parse here.
- Strings are sequences of characters, not UTF-8 bytes. The control-character check and the percent-decoding work on characters.
- Format.DecimalString: `from` and `to` are unbounded integers, not Go's 64-bit `int`; every value the handler can receive fits.
- The key codes `kb.End` and `kb.Backspace` come from chromedp's `kb` package. `End` is a private-use character, and the properties rely only on it differing from Backspace.
- `main_test.go` needs a live Grafana and is not modelled. `TestDuplicateLogin` is restated as `DuplicateLogin` and `LoginAfterLoginSkips`.
