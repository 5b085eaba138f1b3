/**
 * The two browser workflows of main.go, built as chromedp task lists and run
 * through the interpreter: logging in to Grafana (loginGrafanaTasks) and
 * creating a dashboard snapshot (createSnapshotTasks, createSnapshot).
 */
module Workflows {
  import opened Wrappers
  import opened GoPath
  import opened GoUrl
  import opened Format
  import opened Driver

  // Selectors of the Grafana UI, as main.go spells them.
  const BodySelector := "body"
  const UserField := "input[name='user']"
  const PasswordField := "input[name='password']"
  const SubmitButton := "button[type='submit']"
  const DashboardPage := ".page-dashboard"
  const PanelLoadingBar := "div[aria-label='Panel loading bar']"
  const ShareButton := "button[aria-label='Share dashboard']"
  const SnapshotTab := "button[aria-label='Tab Snapshot']"
  const NameInput := "#snapshot-name-input"
  const ExpiryDropdown := ".css-1i88p6p"
  const ExpiryListbox := "#react-select-2-listbox"
  const OneHourOption := "#react-select-2-option-1"
  const LocalSnapshotButton := "//button[span[text()='Local Snapshot']]"
  const UrlInput := "#snapshot-url-input"

  /** kb.Backspace. */
  const Backspace: char := '\U{0008}'
  /** kb.End: a key code of chromedp's kb package; the model only relies on it not being Backspace. */
  const End: char := '\U{E010}'
  /** The number of Backspace keys in the string main.go:261-264 builds. */
  const BackspaceCount: nat := 20

  /** Grafana base URL and the account to log in with. */
  datatype Credentials = Credentials(grafanaURL: string, username: string, password: string)

  /** What a snapshot is made of: its display name, the dashboard, extra query and time range (ms). */
  datatype SnapshotRequest = SnapshotRequest(name: string, dashboardId: string, query: string, from: int, to: int)

  // ---------------------------------------------------------------- login

  /** The first step of the login workflow; it marks each login in a trace. */
  const Viewport: Action := EmulateViewport(1920, 1080)

  /** The wait for the page body and the location read, with which both workflows probe the page. */
  const AuthProbe: seq<Action> := [WaitReady(BodySelector), Location]

  /** The steps before the login decision: viewport, navigation to /login, body wait, location. */
  function LoginProbe(grafanaURL: string): seq<Action>
  {
    [Viewport, Navigate(LoginURL(grafanaURL))] + AuthProbe
  }

  /** The credential submission, in order (main.go:244-248). */
  function SubmitSteps(c: Credentials): seq<Action>
  {
    [WaitReady(UserField), SendKeys(UserField, c.username), SendKeys(PasswordField, c.password),
     Click(SubmitButton, ByDefault), WaitReady(DashboardPage)]
  }

  /** loginGrafanaTasks (main.go:226-251). */
  function LoginTasks(c: Credentials): seq<Task>
  {
    [Do(Viewport),
     Do(Navigate(LoginURL(c.grafanaURL))),
     SkipIfLoggedIn(AuthProbe, SubmitSteps(c))]
  }

  /** chromedp.Run(ctx, loginGrafanaTasks(...)) on a tab whose history is h. */
  function LoginRun(b: Browser, h: seq<Action>, c: Credentials): Execution
  {
    RunTasks(b, h, LoginTasks(c))
  }

  /** chromedp.Run(ctx, loginGrafanaTasks(...)) on a tab. */
  method LoginGrafana(tab: Tab, c: Credentials) returns (out: Outcome)
    modifies tab
    ensures Execution(out, tab.trace) == LoginRun(tab.browser, old(tab.trace), c)
  {
    out := tab.Run(LoginTasks(c));
  }

  /** Every primitive the login workflow can send, in the order it sends them. */
  function LoginSteps(c: Credentials): seq<Action>
  {
    LoginProbe(c.grafanaURL) + SubmitSteps(c)
  }

  /** The location the login probe reads, when its steps succeed. */
  function LoginProbeLocation(b: Browser, h: seq<Action>, grafanaURL: string): string
  {
    LastRead(ReadsAlong(b, h, LoginProbe(grafanaURL)))
  }

  /**
   * Two primitives that read nothing, followed by the login closure, run as
   * the closure whose probe starts with those two primitives.
   */
  lemma {:induction false} StepsThenSkip(b: Browser, h: seq<Action>, x: Action, y: Action, probe: seq<Action>, submit: seq<Action>)
    requires !x.Location? && !x.Value? && !y.Location? && !y.Value?
    ensures RunTasksFrom(b, h, [], [Do(x), Do(y), SkipIfLoggedIn(probe, submit)])
         == RunTask(b, h, SkipIfLoggedIn([x, y] + probe, submit))
  {
    var last := SkipIfLoggedIn(probe, submit);
    assert [Do(x), Do(y), last] == [Do(x)] + ([Do(y)] + [last]);
    RunTasksCons(b, h, [], Do(x), [Do(y)] + [last]);
    RunActionsOne(b, h, [], x);
    NoReadsBefore(b, h, [x, y], probe);
    RunActionsCons(b, h, [], x, [y]);
    if b(h, x).Ok? {
      var h1 := h + [x];
      assert [] + ReadsOf(x, b(h, x).text) == [];
      RunTasksCons(b, h1, [], Do(y), [last]);
      RunActionsOne(b, h1, [], y);
      if b(h1, y).Ok? {
        assert [] + ReadsOf(y, b(h1, y).text) == [];
        assert h1 + [y] == h + [x, y];
        assert [last] == [last] + [];
        RunTasksCons(b, h1 + [y], [], last, []);
      }
    }
  }

  /**
   * The login workflow is its closure run on the whole probe: run the probe;
   * stop on its error; succeed at once unless the location is the login page;
   * otherwise submit the credentials, whose first failing step decides the error.
   */
  lemma {:induction false} LoginRunSteps(b: Browser, h: seq<Action>, c: Credentials)
    ensures LoginRun(b, h, c) == RunTask(b, h, SkipIfLoggedIn(LoginProbe(c.grafanaURL), SubmitSteps(c)))
  {
    var ev, nav := Viewport, Navigate(LoginURL(c.grafanaURL));
    assert LoginProbe(c.grafanaURL) == [ev, nav] + AuthProbe;
    StepsThenSkip(b, h, ev, nav, AuthProbe, SubmitSteps(c));
  }

  /**
   * Already logged in: when the probe succeeds and the location is not the
   * login page, the workflow succeeds having sent only the probe, so neither
   * the username, the password nor the submit click reaches the browser.
   */
  lemma {:induction false} LoginSkippedWhenLoggedIn(b: Browser, h: seq<Action>, c: Credentials)
    requires AllOk(b, h, LoginProbe(c.grafanaURL))
    requires !IsLoginLocation(LoginProbeLocation(b, h, c.grafanaURL))
    ensures LoginRun(b, h, c) == Execution(Done([]), h + LoginProbe(c.grafanaURL))
    ensures forall a | a in LoginRun(b, h, c).trace[|h|..] :: !a.SendKeys? && !a.Click?
  {
    var probe := LoginProbe(c.grafanaURL);
    LoginRunSteps(b, h, c);
    SkipIfLoggedInSkips(b, h, probe, SubmitSteps(c));
    var t := h + probe;
    assert t[|h|..] == probe;
    assert forall a | a in probe :: !a.SendKeys? && !a.Click? by {
      assert probe == [Viewport, Navigate(LoginURL(c.grafanaURL)), WaitReady(BodySelector), Location];
    }
  }

  /** On the login page, the workflow is the credential submission run after the probe. */
  lemma {:induction false} LoginSubmitsOnLoginPage(b: Browser, h: seq<Action>, c: Credentials)
    requires AllOk(b, h, LoginProbe(c.grafanaURL))
    requires IsLoginLocation(LoginProbeLocation(b, h, c.grafanaURL))
    ensures var s := RunActions(b, h + LoginProbe(c.grafanaURL), SubmitSteps(c));
      LoginRun(b, h, c) == Execution(if s.outcome.Failed? then s.outcome else Done([]), s.trace)
  {
    LoginRunSteps(b, h, c);
    SkipIfLoggedInSubmits(b, h, LoginProbe(c.grafanaURL), SubmitSteps(c));
  }

  /** On the login page, when every submission step succeeds, the tab has seen every login step in order. */
  lemma {:induction false} LoginCompletesOnLoginPage(b: Browser, h: seq<Action>, c: Credentials)
    requires AllOk(b, h, LoginProbe(c.grafanaURL))
    requires IsLoginLocation(LoginProbeLocation(b, h, c.grafanaURL))
    requires AllOk(b, h + LoginProbe(c.grafanaURL), SubmitSteps(c))
    ensures LoginRun(b, h, c) == Execution(Done([]), h + LoginSteps(c))
  {
    var probe, submit := LoginProbe(c.grafanaURL), SubmitSteps(c);
    LoginRunSteps(b, h, c);
    SkipIfLoggedInSubmits(b, h, probe, submit);
    assert h + probe + submit == h + LoginSteps(c);
  }

  /**
   * On the login page, the first failing submission step ends the login with
   * its error, and the tab has seen nothing after that step.
   */
  lemma {:induction false} LoginSubmitStepFails(b: Browser, h: seq<Action>, c: Credentials, k: nat)
    requires AllOk(b, h, LoginProbe(c.grafanaURL))
    requires IsLoginLocation(LoginProbeLocation(b, h, c.grafanaURL))
    requires k < |SubmitSteps(c)|
    requires AllOk(b, h + LoginProbe(c.grafanaURL), SubmitSteps(c)[..k])
    requires b(h + LoginProbe(c.grafanaURL) + SubmitSteps(c)[..k], SubmitSteps(c)[k]).Fail?
    ensures var at := h + LoginProbe(c.grafanaURL) + SubmitSteps(c)[..k];
      LoginRun(b, h, c) == Execution(Failed(StepError(b(at, SubmitSteps(c)[k]).cause)), at + [SubmitSteps(c)[k]])
  {
    var hp, submit := h + LoginProbe(c.grafanaURL), SubmitSteps(c);
    LoginSubmitsOnLoginPage(b, h, c);
    assert RunActions(b, hp, submit)
        == Execution(Failed(StepError(b(hp + submit[..k], submit[k]).cause)), hp + submit[..k] + [submit[k]]) by {
      RunActionsFirstFailure(b, hp, [], submit, k);
      assert submit[..k + 1] == submit[..k] + [submit[k]];
      assert hp + (submit[..k] + [submit[k]]) == hp + submit[..k] + [submit[k]];
    }
  }

  /** The login probe reports a logged-in session whatever the tab has seen before. */
  ghost predicate ProbeSeesLoggedIn(b: Browser, hist: seq<Action>, grafanaURL: string)
  {
    AllOk(b, hist, LoginProbe(grafanaURL)) && !IsLoginLocation(LoginProbeLocation(b, hist, grafanaURL))
  }

  ghost predicate LoggedIn(b: Browser, grafanaURL: string)
  {
    forall hist :: ProbeSeesLoggedIn(b, hist, grafanaURL)
  }

  /**
   * Logging in twice on an authenticated session succeeds twice and submits
   * nothing either time: the tab sees the probe twice and nothing else.
   */
  lemma {:induction false} DuplicateLogin(b: Browser, h: seq<Action>, c: Credentials)
    requires LoggedIn(b, c.grafanaURL)
    ensures var first := LoginRun(b, h, c);
      var second := LoginRun(b, first.trace, c);
      first.outcome == Done([]) && second.outcome == Done([]) &&
      second.trace == h + LoginProbe(c.grafanaURL) + LoginProbe(c.grafanaURL)
  {
    assert ProbeSeesLoggedIn(b, h, c.grafanaURL);
    LoginSkippedWhenLoggedIn(b, h, c);
    var h1 := h + LoginProbe(c.grafanaURL);
    assert ProbeSeesLoggedIn(b, h1, c.grafanaURL);
    LoginSkippedWhenLoggedIn(b, h1, c);
  }

  /**
   * TestDuplicateLogin as the test states it: whatever the first login did,
   * when the probe after it finds an authenticated session, the second login
   * succeeds having sent only the probe, and no credentials or submit click.
   */
  lemma {:induction false} LoginAfterLoginSkips(b: Browser, h: seq<Action>, c: Credentials)
    requires ProbeSeesLoggedIn(b, LoginRun(b, h, c).trace, c.grafanaURL)
    ensures var first := LoginRun(b, h, c);
      var second := LoginRun(b, first.trace, c);
      second.outcome == Done([]) && second.trace == first.trace + LoginProbe(c.grafanaURL) &&
      forall a | a in second.trace[|first.trace|..] :: !a.SendKeys? && !a.Click?
  {
    LoginSkippedWhenLoggedIn(b, LoginRun(b, h, c).trace, c);
  }

  /**
   * Whatever happens, the login run appends to the history a non-empty prefix
   * of LoginSteps: at least the viewport step, at most every login step.
   */
  lemma {:induction false} LoginRunAppends(b: Browser, h: seq<Action>, c: Credentials)
    ensures var e := LoginRun(b, h, c);
      |h| < |e.trace| <= |h| + |LoginSteps(c)| && e.trace == h + LoginSteps(c)[..|e.trace| - |h|]
  {
    LoginRunSteps(b, h, c);
    var probe, submit := LoginProbe(c.grafanaURL), SubmitSteps(c);
    var p := RunActions(b, h, probe);
    RunActionsTrace(b, h, [], probe);
    PrefixOfLeft(h, probe, submit, p.trace);
    if p.outcome.Done? && IsLoginLocation(LastRead(p.outcome.values)) {
      var s := RunActions(b, p.trace, submit);
      RunActionsTrace(b, p.trace, [], submit);
      PrefixOfRight(h, probe, submit, s.trace);
    }
  }

  /** Every non-empty prefix of the login steps sets the viewport once and navigates nowhere but the login page. */
  lemma {:induction false} LoginPrefixCounts(c: Credentials, url: string, k: nat)
    requires url != LoginURL(c.grafanaURL)
    requires 1 <= k <= |LoginSteps(c)|
    ensures multiset(LoginSteps(c)[..k])[Viewport] == 1
    ensures multiset(LoginSteps(c)[..k])[Navigate(url)] == 0
  {
    var steps := LoginSteps(c);
    var ev := Viewport;
    var rest := steps[1..k];
    assert steps[..k] == [ev] + rest;
    assert forall i | 0 <= i < |rest| :: rest[i] == steps[i + 1];
    assert forall i | 1 <= i < |steps| :: steps[i] != ev && steps[i] != Navigate(url);
    assert ev !in rest && Navigate(url) !in rest;
    OnlyAtHead(ev, rest, ev);
    OnlyAtHead(ev, rest, Navigate(url));
  }

  // ---------------------------------------------------------------- snapshot

  /** A string of n copies of c. */
  function Repeat(c: char, n: nat): (s: string)
    ensures |s| == n && forall i | 0 <= i < n :: s[i] == c
  {
    if n == 0 then [] else Repeat(c, n - 1) + [c]
  }

  /** The multiBackspace loop (main.go:261-264). */
  method MultiBackspace() returns (s: string)
    ensures s == Repeat(Backspace, BackspaceCount)
  {
    s := [];
    for i := 0 to BackspaceCount
      invariant s == Repeat(Backspace, i)
    {
      s := s + [Backspace];
    }
  }

  /** The pause for the first paint and the diagnostic screenshot (main.go:270-273). */
  const RenderSteps: seq<Action> := [Sleep(5), FullScreenshot(100)]


  /** From the panel-loading wait to the snapshot URL field, with clear as the deletion keys. */
  function PanelToUrlSteps(name: string, clear: string): seq<Action>
  {
    [WaitReady(PanelLoadingBar), WaitNotPresent(PanelLoadingBar),
     Click(ShareButton, ByDefault), Click(SnapshotTab, ByDefault),
     WaitReady(NameInput), Click(NameInput, ByID),
     KeyEvent([End]), KeyEvent(clear), KeyEvent([Backspace]),
     SendKeys(NameInput, name),
     Click(ExpiryDropdown, ByDefault), WaitReady(ExpiryListbox), Click(OneHourOption, ByDefault),
     Click(LocalSnapshotButton, BySearch),
     WaitReady(UrlInput)]
  }

  /** The first step of createSnapshotTasks: the navigation to the dashboard (main.go:266). */
  function DashboardNavigation(grafanaURL: string, req: SnapshotRequest): Action
  {
    Navigate(DashboardURL(grafanaURL, req.dashboardId, req.from, req.to, req.query))
  }

  /** createSnapshotTasks with clear for the multiBackspace string (main.go:265-319). */
  function SnapshotTaskList(grafanaURL: string, req: SnapshotRequest, clear: string): seq<Task>
  {
    [Do(DashboardNavigation(grafanaURL, req)),
     FailIfLoginPage(RenderSteps, AuthProbe)]
    + DoAll(PanelToUrlSteps(req.name, clear))
  }

  /** createSnapshotTasks (main.go:260-320). */
  function SnapshotTasks(grafanaURL: string, req: SnapshotRequest): seq<Task>
  {
    SnapshotTaskList(grafanaURL, req, Repeat(Backspace, BackspaceCount))
  }

  /** createSnapshotTasks as main.go runs it: the loop first, then the list. */
  method CreateSnapshotTasks(grafanaURL: string, req: SnapshotRequest) returns (ts: seq<Task>)
    ensures ts == SnapshotTasks(grafanaURL, req)
  {
    var multiBackspace := MultiBackspace();
    ts := SnapshotTaskList(grafanaURL, req, multiBackspace);
  }

  /** The steps up to the authentication check. */
  function PreCheckSteps(grafanaURL: string, req: SnapshotRequest): seq<Action>
  {
    [DashboardNavigation(grafanaURL, req)] + RenderSteps + AuthProbe
  }

  /** The steps after the authentication check, ending with the read of the snapshot URL. */
  function PostCheckSteps(req: SnapshotRequest): seq<Action>
  {
    PanelToUrlSteps(req.name, Repeat(Backspace, BackspaceCount)) + [Value(UrlInput)]
  }

  /** Every primitive createSnapshot can send, in order. */
  function SnapshotSteps(grafanaURL: string, req: SnapshotRequest): seq<Action>
  {
    PreCheckSteps(grafanaURL, req) + PostCheckSteps(req)
  }

  /** path.Base(url.Parse(v).Path) (main.go:217-221). */
  function SnapshotKey(v: string): Result<string, string>
  {
    match ParsePath(v)
    case Failure(why) => Failure(why)
    case Success(path) => Success(Base(path))
  }

  /** The (key, error) pair createSnapshot returns, with the tab's history afterwards. */
  datatype Attempt = Attempt(key: string, err: Option<Error>, trace: seq<Action>)

  /** The end of createSnapshot (main.go:212-223): the run's error, or the key of the last value read. */
  function KeyAttempt(e: Execution): (a: Attempt)
    ensures a.trace == e.trace
    ensures a.err.None? <==> e.outcome.Done? && SnapshotKey(LastRead(e.outcome.values)).Success?
    ensures a.err.None? ==> a.key == SnapshotKey(LastRead(e.outcome.values)).value
    ensures a.err.Some? ==> a.key == ""
    ensures e.outcome.Failed? ==> a.err == Some(e.outcome.err)
    ensures e.outcome.Done? && a.err.Some? ==> a.err.value.UrlError? && a.err.value.raw == LastRead(e.outcome.values)
  {
    match e.outcome
    case Failed(err) => Attempt("", Some(err), e.trace)
    case Done(values) =>
      var v := LastRead(values);
      match SnapshotKey(v)
      case Failure(why) => Attempt("", Some(UrlError(v, why)), e.trace)
      case Success(key) => Attempt(key, None, e.trace)
  }

  /** createSnapshot (main.go:208-224) on a tab whose history is h. */
  function SnapshotRun(b: Browser, h: seq<Action>, grafanaURL: string, req: SnapshotRequest): Attempt
  {
    KeyAttempt(RunTasks(b, h, SnapshotTasks(grafanaURL, req) + [Do(Value(UrlInput))]))
  }

  /**
   * createSnapshot on a tab: the task list and the read of the URL field in one
   * chromedp.Run, then path.Base of the parsed path.
   */
  method CreateSnapshot(tab: Tab, grafanaURL: string, req: SnapshotRequest) returns (key: string, err: Option<Error>)
    modifies tab
    ensures Attempt(key, err, tab.trace) == SnapshotRun(tab.browser, old(tab.trace), grafanaURL, req)
  {
    var ts := CreateSnapshotTasks(grafanaURL, req);
    var out := tab.Run(ts + [Do(Value(UrlInput))]);
    if out.Failed? {
      return "", Some(out.err);
    }
    var snapshotURL := LastRead(out.values);
    var path := ParsePath(snapshotURL);
    if path.Failure? {
      return "", Some(UrlError(snapshotURL, path.error));
    }
    key := Base(path.value);
    err := None;
  }

  /**
   * A list of steps with an authentication check in the middle: run pre; fail
   * with NeedLogin when the last location it read is the login page; else run post.
   */
  function CheckedRun(b: Browser, h: seq<Action>, pre: seq<Action>, post: seq<Action>): Execution
  {
    var p := RunActions(b, h, pre);
    if p.outcome.Failed? then p
    else if IsLoginLocation(LastRead(p.outcome.values)) then Execution(Failed(NeedLogin), p.trace)
    else RunActions(b, p.trace, post)
  }

  /** The check fails with NeedLogin exactly when pre succeeds and reads the login page; then nothing of post is sent. */
  lemma {:induction false} CheckedRunNeedLogin(b: Browser, h: seq<Action>, pre: seq<Action>, post: seq<Action>)
    ensures CheckedRun(b, h, pre, post).outcome == Failed(NeedLogin) <==>
      AllOk(b, h, pre) && IsLoginLocation(LastRead(ReadsAlong(b, h, pre)))
    ensures CheckedRun(b, h, pre, post).outcome == Failed(NeedLogin) ==> CheckedRun(b, h, pre, post).trace == h + pre
  {
    RunActionsDoneIff(b, h, [], pre);
    RunActionsTrace(b, h, [], pre);
    assert [] + ReadsAlong(b, h, pre) == ReadsAlong(b, h, pre);
    var p := RunActions(b, h, pre);
    if p.outcome.Done? && !IsLoginLocation(LastRead(p.outcome.values)) {
      RunActionsTrace(b, p.trace, [], post);
    }
  }

  /** The checked run succeeds exactly when both halves succeed and the location is not the login page. */
  lemma {:induction false} CheckedRunDone(b: Browser, h: seq<Action>, pre: seq<Action>, post: seq<Action>)
    ensures CheckedRun(b, h, pre, post).outcome.Done? <==>
      AllOk(b, h, pre) && !IsLoginLocation(LastRead(ReadsAlong(b, h, pre))) && AllOk(b, h + pre, post)
    ensures CheckedRun(b, h, pre, post).outcome.Done? ==>
      CheckedRun(b, h, pre, post) == Execution(Done(ReadsAlong(b, h + pre, post)), h + pre + post)
  {
    RunActionsDoneIff(b, h, [], pre);
    RunActionsTrace(b, h, [], pre);
    assert [] + ReadsAlong(b, h, pre) == ReadsAlong(b, h, pre);
    RunActionsDoneIff(b, h + pre, [], post);
    RunActionsTrace(b, h + pre, [], post);
    assert [] + ReadsAlong(b, h + pre, post) == ReadsAlong(b, h + pre, post);
  }

  /**
   * Whatever happens, the checked run appends to the history a prefix of
   * pre + post, and at least the first step of a non-empty pre.
   */
  lemma {:induction false} CheckedRunAppends(b: Browser, h: seq<Action>, pre: seq<Action>, post: seq<Action>)
    ensures var e := CheckedRun(b, h, pre, post);
      |h| <= |e.trace| <= |h| + |pre + post| && e.trace == h + (pre + post)[..|e.trace| - |h|]
    ensures pre != [] ==> |h| < |CheckedRun(b, h, pre, post).trace|
  {
    var p := RunActions(b, h, pre);
    if p.outcome.Failed? || IsLoginLocation(LastRead(p.outcome.values)) {
      assert CheckedRun(b, h, pre, post).trace == p.trace;
      RunActionsTrace(b, h, [], pre);
      PrefixOfLeft(h, pre, post, p.trace);
    } else {
      var s := RunActions(b, p.trace, post);
      assert CheckedRun(b, h, pre, post) == s;
      assert p.trace == h + pre && (pre != [] ==> |h| < |p.trace|) by { RunActionsTrace(b, h, [], pre); }
      RunActionsTrace(b, p.trace, [], post);
      PrefixOfRight(h, pre, post, s.trace);
    }
  }

  /** The location the authentication check reads, when the steps before it succeed. */
  function AuthCheckLocation(b: Browser, h: seq<Action>, grafanaURL: string, req: SnapshotRequest): string
  {
    LastRead(ReadsAlong(b, h, PreCheckSteps(grafanaURL, req)))
  }

  /** The value read from the snapshot URL field, when every step succeeds. */
  function SnapshotURLValue(b: Browser, h: seq<Action>, grafanaURL: string, req: SnapshotRequest): string
  {
    LastRead(ReadsAlong(b, h + PreCheckSteps(grafanaURL, req), PostCheckSteps(req)))
  }

  lemma {:induction false} NoReadsBefore(b: Browser, h: seq<Action>, acts: seq<Action>, tail: seq<Action>)
    requires forall i | 0 <= i < |acts| :: !acts[i].Location? && !acts[i].Value?
    ensures RunActionsFrom(b, h, [], acts + tail) ==
      var e := RunActionsFrom(b, h, [], acts);
      if e.outcome.Failed? then e else RunActionsFrom(b, e.trace, [], tail)
  {
    RunActionsAppend(b, h, [], acts, tail);
    if RunActionsFrom(b, h, [], acts).outcome.Done? {
      RunActionsDoneIff(b, h, [], acts);
      RunActionsAllOk(b, h, [], acts);
      NoReadsAlong(b, h, acts);
    }
  }

  lemma {:induction false} NoReadsAlong(b: Browser, h: seq<Action>, acts: seq<Action>)
    requires forall i | 0 <= i < |acts| :: !acts[i].Location? && !acts[i].Value?
    ensures ReadsAlong(b, h, acts) == []
    decreases |acts|
  {
    if acts != [] {
      NoReadsAlong(b, h + [acts[0]], acts[1..]);
    }
  }

  /**
   * A primitive followed by the authentication closure runs as one list of
   * steps with the check at its end, when neither the primitive nor the render
   * steps read anything.
   */
  lemma {:induction false} StepThenCheck(b: Browser, h: seq<Action>, first: Action, render: seq<Action>, probe: seq<Action>)
    requires !first.Location? && !first.Value?
    requires forall i | 0 <= i < |render| :: !render[i].Location? && !render[i].Value?
    ensures RunTasksFrom(b, h, [], [Do(first), FailIfLoginPage(render, probe)]) ==
      var p := RunActions(b, h, [first] + render + probe);
      if p.outcome.Failed? then p
      else if IsLoginLocation(LastRead(p.outcome.values)) then Execution(Failed(NeedLogin), p.trace)
      else Execution(Done([]), p.trace)
  {
    var check := FailIfLoginPage(render, probe);
    RunTasksCons(b, h, [], Do(first), [check]);
    RunActionsOne(b, h, [], first);
    assert [first] + render + probe == [first] + (render + probe);
    RunActionsCons(b, h, [], first, render + probe);
    if b(h, first).Ok? {
      var h1 := h + [first];
      assert [] + ReadsOf(first, b(h, first).text) == [];
      assert [check] == [check] + [];
      RunTasksCons(b, h1, [], check, []);
      NoReadsBefore(b, h1, render, probe);
    }
  }

  /**
   * createSnapshot's task list runs as the steps up to the authentication
   * check, the check, and the remaining steps through the read of the URL field.
   */
  lemma {:induction false} SnapshotRunSteps(b: Browser, h: seq<Action>, grafanaURL: string, req: SnapshotRequest)
    ensures SnapshotRun(b, h, grafanaURL, req) ==
      KeyAttempt(CheckedRun(b, h, PreCheckSteps(grafanaURL, req), PostCheckSteps(req)))
  {
    var nav := DashboardNavigation(grafanaURL, req);
    var check := FailIfLoginPage(RenderSteps, AuthProbe);
    var post := PostCheckSteps(req);
    SnapshotTaskSplit(grafanaURL, req);
    RunTasksAppend(b, h, [], [Do(nav), check], DoAll(post));
    StepThenCheck(b, h, nav, RenderSteps, AuthProbe);
    var mid := RunTasksFrom(b, h, [], [Do(nav), check]);
    if mid.outcome.Done? {
      RunDoAll(b, mid.trace, [], post);
    }
  }

  /** The task list with the URL read appended: the first two tasks, then the remaining steps as tasks. */
  lemma SnapshotTaskSplit(grafanaURL: string, req: SnapshotRequest)
    ensures SnapshotTasks(grafanaURL, req) + [Do(Value(UrlInput))] ==
      [Do(DashboardNavigation(grafanaURL, req)),
       FailIfLoginPage(RenderSteps, AuthProbe)] + DoAll(PostCheckSteps(req))
    ensures PreCheckSteps(grafanaURL, req) ==
      [DashboardNavigation(grafanaURL, req)] + RenderSteps + AuthProbe
  {
    var clear := Repeat(Backspace, BackspaceCount);
    DoAllAppend(PanelToUrlSteps(req.name, clear), [Value(UrlInput)]);
    assert DoAll([Value(UrlInput)]) == [Do(Value(UrlInput))];
  }

  /**
   * createSnapshot reports ErrDashboardNeedLogin exactly when the steps up to
   * the authentication check succeed and path.Base of the location read is
   * "login"; then the tab has seen nothing after that read.
   */
  lemma {:induction false} NeedLoginExactlyOnLoginPage(b: Browser, h: seq<Action>, grafanaURL: string, req: SnapshotRequest)
    ensures SnapshotRun(b, h, grafanaURL, req).err == Some(NeedLogin) <==>
      AllOk(b, h, PreCheckSteps(grafanaURL, req)) && IsLoginLocation(AuthCheckLocation(b, h, grafanaURL, req))
    ensures SnapshotRun(b, h, grafanaURL, req).err == Some(NeedLogin) ==>
      SnapshotRun(b, h, grafanaURL, req).trace == h + PreCheckSteps(grafanaURL, req)
  {
    SnapshotRunSteps(b, h, grafanaURL, req);
    CheckedRunNeedLogin(b, h, PreCheckSteps(grafanaURL, req), PostCheckSteps(req));
  }

  /**
   * createSnapshot succeeds exactly when every step succeeds, the location is
   * not the login page and the value read parses as a URL; its key is then
   * path.Base of that URL's path and the tab has seen every step in order.
   */
  lemma {:induction false} SnapshotSucceedsIff(b: Browser, h: seq<Action>, grafanaURL: string, req: SnapshotRequest)
    ensures SnapshotRun(b, h, grafanaURL, req).err.None? <==>
        AllOk(b, h, PreCheckSteps(grafanaURL, req)) &&
        !IsLoginLocation(AuthCheckLocation(b, h, grafanaURL, req)) &&
        AllOk(b, h + PreCheckSteps(grafanaURL, req), PostCheckSteps(req)) &&
        ParsePath(SnapshotURLValue(b, h, grafanaURL, req)).Success?
    ensures SnapshotRun(b, h, grafanaURL, req).err.None? ==>
      var v := SnapshotURLValue(b, h, grafanaURL, req);
      && SnapshotRun(b, h, grafanaURL, req).key == Base(ParsePath(v).value)
      && SnapshotRun(b, h, grafanaURL, req).trace == h + SnapshotSteps(grafanaURL, req)
  {
    SnapshotRunSteps(b, h, grafanaURL, req);
    var pre, post := PreCheckSteps(grafanaURL, req), PostCheckSteps(req);
    CheckedRunDone(b, h, pre, post);
    assert h + pre + post == h + SnapshotSteps(grafanaURL, req);
  }

  /**
   * Whatever happens, createSnapshot appends to the history a non-empty prefix
   * of SnapshotSteps: at least the dashboard navigation, at most every step.
   */
  lemma {:induction false} SnapshotRunAppends(b: Browser, h: seq<Action>, grafanaURL: string, req: SnapshotRequest)
    ensures var a := SnapshotRun(b, h, grafanaURL, req);
      |h| < |a.trace| <= |h| + |SnapshotSteps(grafanaURL, req)| &&
      a.trace == h + SnapshotSteps(grafanaURL, req)[..|a.trace| - |h|]
  {
    SnapshotRunSteps(b, h, grafanaURL, req);
    CheckedRunAppends(b, h, PreCheckSteps(grafanaURL, req), PostCheckSteps(req));
  }

  /** No step of s navigates or sets the viewport. */
  predicate StaysOnPage(s: seq<Action>)
  {
    forall i | 0 <= i < |s| :: !s[i].Navigate? && !s[i].EmulateViewport?
  }

  /** An action occurs in [head] + rest only as its head when rest never has it. */
  lemma OnlyAtHead(head: Action, rest: seq<Action>, a: Action)
    requires a !in rest
    ensures multiset([head] + rest)[a] == if head == a then 1 else 0
  {
    assert multiset([head] + rest) == multiset{head} + multiset(rest);
  }

  /** Nothing after the dashboard navigation navigates again or sets the viewport. */
  lemma {:induction false} AfterNavigationStaysOnPage(req: SnapshotRequest)
    ensures StaysOnPage(RenderSteps + AuthProbe + PostCheckSteps(req))
  {
    var panel := PanelToUrlSteps(req.name, Repeat(Backspace, BackspaceCount));
    assert StaysOnPage(panel);
    var rest := RenderSteps + AuthProbe + [Value(UrlInput)];
    assert StaysOnPage(rest);
    assert RenderSteps + AuthProbe + PostCheckSteps(req) == RenderSteps + AuthProbe + panel + [Value(UrlInput)];
    var all := RenderSteps + AuthProbe + panel + [Value(UrlInput)];
    forall i | 0 <= i < |all|
      ensures !all[i].Navigate? && !all[i].EmulateViewport?
    {
      if 4 <= i < 4 + |panel| {
        assert all[i] == panel[i - 4];
      }
    }
  }

  lemma SnapshotStepsSplit(grafanaURL: string, req: SnapshotRequest)
    ensures SnapshotSteps(grafanaURL, req) ==
      [DashboardNavigation(grafanaURL, req)] + (RenderSteps + AuthProbe + PostCheckSteps(req))
  {
    Regroup([DashboardNavigation(grafanaURL, req)], RenderSteps, AuthProbe, PostCheckSteps(req));
  }

  /** Concatenation is associative; stated once so that long step lists are not unfolded. */
  lemma Regroup(w: seq<Action>, x: seq<Action>, y: seq<Action>, z: seq<Action>)
    ensures w + x + y + z == w + (x + y + z)
  {
  }

  /** A navigation followed by steps that stay on the page. */
  lemma HeadCounts(nav: Action, rest: seq<Action>)
    requires nav.Navigate? && StaysOnPage(rest)
    ensures multiset([nav] + rest)[Viewport] == 0
    ensures multiset([nav] + rest)[nav] == 1
  {
    assert nav !in rest && Viewport !in rest;
    OnlyAtHead(nav, rest, nav);
    OnlyAtHead(nav, rest, Viewport);
  }

  /** Every non-empty prefix of the snapshot steps navigates to the dashboard once and never sets the viewport. */
  lemma {:induction false} SnapshotPrefixCounts(grafanaURL: string, req: SnapshotRequest, k: nat)
    requires 1 <= k <= |SnapshotSteps(grafanaURL, req)|
    ensures multiset(SnapshotSteps(grafanaURL, req)[..k])[Viewport] == 0
    ensures multiset(SnapshotSteps(grafanaURL, req)[..k])[DashboardNavigation(grafanaURL, req)] == 1
  {
    var nav := DashboardNavigation(grafanaURL, req);
    var rest := RenderSteps + AuthProbe + PostCheckSteps(req);
    SnapshotStepsSplit(grafanaURL, req);
    AfterNavigationStaysOnPage(req);
    assert SnapshotSteps(grafanaURL, req)[..k] == [nav] + rest[..k - 1];
    assert StaysOnPage(rest[..k - 1]);
    HeadCounts(nav, rest[..k - 1]);
  }

  /** The keys sent by KeyEvent before the first SendKeys to selector. */
  function KeysBefore(acts: seq<Action>, selector: string): string
    decreases |acts|
  {
    if acts == [] then []
    else if acts[0].SendKeys? && acts[0].selector == selector then []
    else (if acts[0].KeyEvent? then acts[0].keys else []) + KeysBefore(acts[1..], selector)
  }

  /** Keys typed before any SendKeys to selector add up across a concatenation. */
  lemma {:induction false} KeysBeforeAppend(xs: seq<Action>, ys: seq<Action>, selector: string)
    requires forall i | 0 <= i < |xs| :: !(xs[i].SendKeys? && xs[i].selector == selector)
    ensures KeysBefore(xs + ys, selector) == KeysBefore(xs, selector) + KeysBefore(ys, selector)
    decreases |xs|
  {
    if xs == [] {
      assert xs + ys == ys;
    } else {
      assert (xs + ys)[0] == xs[0] && (xs + ys)[1..] == xs[1..] + ys;
      KeysBeforeAppend(xs[1..], ys, selector);
    }
  }

  /** Steps without key events or typing send no keys. */
  lemma {:induction false} KeysBeforeNone(xs: seq<Action>, selector: string)
    requires forall i | 0 <= i < |xs| :: !xs[i].KeyEvent? && !xs[i].SendKeys?
    ensures KeysBefore(xs, selector) == []
    decreases |xs|
  {
    if xs != [] {
      KeysBeforeNone(xs[1..], selector);
    }
  }

  /** In the panel steps, the keys sent before the name is typed are End, clear and one Backspace. */
  lemma PanelKeysBefore(name: string, clear: string, rest: seq<Action>)
    ensures KeysBefore(PanelToUrlSteps(name, clear) + rest, NameInput) == [End] + clear + [Backspace]
    ensures SendKeys(NameInput, name) in PanelToUrlSteps(name, clear)
  {
    var a := [WaitReady(PanelLoadingBar), WaitNotPresent(PanelLoadingBar),
              Click(ShareButton, ByDefault), Click(SnapshotTab, ByDefault),
              WaitReady(NameInput), Click(NameInput, ByID)];
    var k := [KeyEvent([End]), KeyEvent(clear), KeyEvent([Backspace])];
    var t := [SendKeys(NameInput, name),
              Click(ExpiryDropdown, ByDefault), WaitReady(ExpiryListbox), Click(OneHourOption, ByDefault),
              Click(LocalSnapshotButton, BySearch),
              WaitReady(UrlInput)];
    assert PanelToUrlSteps(name, clear) == a + k + t;
    assert PanelToUrlSteps(name, clear) + rest == a + (k + (t + rest));
    KeysBeforeNone(a, NameInput);
    KeysBeforeAppend(a, k + (t + rest), NameInput);
    KeysBeforeAppend(k, t + rest, NameInput);
    assert (t + rest)[0] == SendKeys(NameInput, name);
    assert KeysBefore(t + rest, NameInput) == [];
    assert KeysBefore(k[2..], NameInput) == [Backspace] by { assert k[2..][1..] == []; }
    assert KeysBefore(k[1..], NameInput) == clear + [Backspace] by { assert k[1..][1..] == k[2..]; }
    assert KeysBefore(k, NameInput) == [End] + clear + [Backspace];
    assert (a + k + t)[9] == SendKeys(NameInput, name);
  }

  /**
   * Clearing the name field: before the display name is typed, the workflow
   * sends End and then 21 Backspace keys (the 20-key string and one more), and
   * it does type the requested name.
   */
  lemma NameFieldCleared(grafanaURL: string, req: SnapshotRequest)
    ensures KeysBefore(SnapshotSteps(grafanaURL, req), NameInput) == [End] + Repeat(Backspace, BackspaceCount + 1)
    ensures SendKeys(NameInput, req.name) in SnapshotSteps(grafanaURL, req)
  {
    var clear := Repeat(Backspace, BackspaceCount);
    var pre := PreCheckSteps(grafanaURL, req);
    var panel := PanelToUrlSteps(req.name, clear);
    KeysBeforeNone(pre, NameInput);
    KeysBeforeAppend(pre, PostCheckSteps(req), NameInput);
    PanelKeysBefore(req.name, clear, [Value(UrlInput)]);
    EndThenBackspaces(BackspaceCount);
    assert SnapshotSteps(grafanaURL, req) == pre + (panel + [Value(UrlInput)]);
  }

  /** End, n Backspace keys and one more is End with n + 1 Backspace keys. */
  lemma EndThenBackspaces(n: nat)
    ensures [End] + Repeat(Backspace, n) + [Backspace] == [End] + Repeat(Backspace, n + 1)
  {
  }

  /**
   * When the browser reports the dashboard URL itself as its location, a query
   * ending in "/login" makes the authentication check fail the attempt with
   * ErrDashboardNeedLogin, although the dashboard was reached.
   */
  lemma {:induction false} DashboardLoginQueryNeedsLogin(b: Browser, h: seq<Action>, grafanaURL: string, req: SnapshotRequest, prefix: string)
    requires req.query == prefix + "/login"
    requires AllOk(b, h, PreCheckSteps(grafanaURL, req))
    requires AuthCheckLocation(b, h, grafanaURL, req) == DashboardURL(grafanaURL, req.dashboardId, req.from, req.to, req.query)
    ensures SnapshotRun(b, h, grafanaURL, req).err == Some(NeedLogin)
  {
    DashboardURLWithLoginQuery(grafanaURL, req.dashboardId, req.from, req.to, prefix);
    NeedLoginExactlyOnLoginPage(b, h, grafanaURL, req);
  }

  /** A snapshot URL whose last element is key yields exactly that key. */
  lemma {:induction false} KeyOfSnapshotURL(scheme: string, host: string, key: string)
    requires IsScheme(scheme)
    requires forall c | c in host :: !IsControl(c) && c !in "/?#"
    requires key != [] && forall c | c in key :: !IsControl(c) && c !in "/?#%"
    ensures SnapshotKey(SnapshotLink(scheme + "://" + host, key)) == Success(key)
  {
    var path := "/dashboard/snapshot/" + key;
    assert SnapshotLink(scheme + "://" + host, key) == scheme + "://" + host + path;
    assert forall c | c in "/dashboard/snapshot/" :: !IsControl(c) && c !in "?#%";
    ParseAbsoluteURL(scheme, host, path);
    assert '/' !in key;
    assert path == "/dashboard/snapshot" + "/" + key;
    BaseOfLastElement("/dashboard/snapshot", key);
  }

  /**
   * path.Base is applied to two different strings: the login and
   * authentication checks take the raw location, the key takes the parsed
   * path. A login page reached with a query string that holds no '/', such
   * as https://grafana/login?redirect=x, is therefore not taken for the login
   * page, while the key of the same URL would be "login".
   */
  lemma {:induction false} LoginPageWithQueryIsMissed(scheme: string, host: string, query: string)
    requires IsScheme(scheme)
    requires forall c | c in host :: !IsControl(c) && c !in "/?#"
    requires forall c | c in query :: !IsControl(c) && c !in "/#"
    ensures !IsLoginLocation(scheme + "://" + host + "/login?" + query)
    ensures SnapshotKey(scheme + "://" + host + "/login?" + query) == Success("login")
  {
    RawBaseKeepsQuery(scheme + "://" + host, query);
    assert |"login?" + query| != |"login"|;
    LoginWithQueryKey(scheme, host, query);
  }

  /** The key of the login page reached with a query is "login". */
  lemma LoginWithQueryKey(scheme: string, host: string, query: string)
    requires IsScheme(scheme)
    requires forall c | c in host :: !IsControl(c) && c !in "/?#"
    requires forall c | c in query :: !IsControl(c) && c !in "/#"
    ensures SnapshotKey(scheme + "://" + host + "/login?" + query) == Success("login")
  {
    assert forall c | c in "login" :: !IsControl(c) && c !in "/?#%";
    assert scheme + "://" + host + "/login?" + query == scheme + "://" + host + "/" + "login" + "?" + query;
    KeyDropsQuery(scheme, host, "login", query);
  }

  lemma RawBaseKeepsQuery(origin: string, query: string)
    requires '/' !in query
    ensures Base(origin + "/login?" + query) == "login?" + query
  {
    var elem := "login?" + query;
    assert origin + "/login?" + query == origin + "/" + elem;
    assert '/' !in elem;
    BaseOfLastElement(origin, elem);
  }

  /** The key of a URL with a query is the last element of its path, without the query. */
  lemma KeyDropsQuery(scheme: string, host: string, elem: string, query: string)
    requires IsScheme(scheme)
    requires forall c | c in host :: !IsControl(c) && c !in "/?#"
    requires elem != [] && forall c | c in elem :: !IsControl(c) && c !in "/?#%"
    requires forall c | c in query :: !IsControl(c) && c != '#'
    ensures SnapshotKey(scheme + "://" + host + "/" + elem + "?" + query) == Success(elem)
  {
    ParseElementWithQuery(scheme, host, elem, query);
    assert '/' !in elem;
    BaseOfRootElement(elem);
    KeyOfParsedPath(scheme + "://" + host + "/" + elem + "?" + query, "/" + elem);
  }

  lemma ParseElementWithQuery(scheme: string, host: string, elem: string, query: string)
    requires IsScheme(scheme)
    requires forall c | c in host :: !IsControl(c) && c !in "/?#"
    requires elem != [] && forall c | c in elem :: !IsControl(c) && c !in "/?#%"
    requires forall c | c in query :: !IsControl(c) && c != '#'
    ensures ParsePath(scheme + "://" + host + "/" + elem + "?" + query) == Success("/" + elem)
  {
    var u := scheme + "://" + host + "/" + elem + "?" + query;
    var path := "/" + elem;
    assert forall c | c in path :: !IsControl(c) && c !in "?#%" by {
      forall c | c in path ensures !IsControl(c) && c !in "?#%" {
        if c != '/' {
          assert c in elem;
        }
      }
    }
    assert u == scheme + "://" + host + path + "?" + query;
    ParseAbsoluteURLWithQuery(scheme, host, path, query);
  }

  /** The key of a value is path.Base of the path it parses to. */
  lemma KeyOfParsedPath(v: string, path: string)
    requires ParsePath(v) == Success(path)
    ensures SnapshotKey(v) == Success(Base(path))
  {
  }

  /** An empty URL field parses to an empty path, whose key is ".". */
  lemma EmptyURLFieldGivesDot()
    ensures SnapshotKey("") == Success(".")
  {
    assert IndexOf("", '#') == 0 && IndexOf("", '?') == 0 && IndexOf("", '/') == 0;
    assert !ContainsControl("");
    assert SchemeFrom("", 0) == Success(([], ""));
    assert ParseWithoutFragment("") == Success("");
  }
}
