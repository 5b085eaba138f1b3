/**
 * The two HTTP handlers of main.go as request coordinators: which workflows
 * they run on a fresh browser tab, in which order, and which responses they
 * write. A response is its status and either the snapshot link or the error.
 */
module Handlers {
  import opened Wrappers
  import opened Format
  import opened Driver
  import opened Workflows

  /**
   * The defaults DefaultGrafanaURL, DefaultGrafanaUserName and
   * DefaultGrafanaPassword are a Credentials value; all three are set.
   */
  predicate Complete(cfg: Credentials)
  {
    cfg.grafanaURL != "" && cfg.username != "" && cfg.password != ""
  }

  /** The body of a /login_and_snapshot request. */
  datatype LoginSnapshotRequest = LoginSnapshotRequest(grafanaURL: string, username: string, password: string, snapshot: SnapshotRequest)

  /** The JSON a handler writes: {"url": ...} or {"error": ...}. */
  datatype Body = Link(url: string) | ErrorBody(err: Error)

  /** One c.JSON(status, body) call. */
  datatype Response = Response(status: int, body: Body)

  /** Every response a handler writes, in order, and what its browser tab was sent. */
  datatype HandlerRun = HandlerRun(responses: seq<Response>, trace: seq<Action>)

  /** The success response with the snapshot link on grafanaURL (main.go:168-170, 203-205). */
  function LinkResponse(grafanaURL: string, key: string): Response
  {
    Response(200, Link(SnapshotLink(grafanaURL, key)))
  }

  /**
   * The relogin branch of CreateSnapshotHandler (main.go:145-162), entered with
   * the tab's history after the first attempt: a login whose failure is written
   * as a 500 without returning, then a second attempt that decides the last response.
   */
  function Relogin(cfg: Credentials, req: SnapshotRequest, b: Browser, after: seq<Action>): HandlerRun
  {
    var login := LoginRun(b, after, cfg);
    var early := if login.outcome.Failed? then [Response(500, ErrorBody(Wrapped("relogin error", login.outcome.err)))] else [];
    var second := SnapshotRun(b, login.trace, cfg.grafanaURL, req);
    match second.err
    case Some(err) => HandlerRun(early + [Response(500, ErrorBody(Wrapped("retry create snapshot error", err)))], second.trace)
    case None => HandlerRun(early + [LinkResponse(cfg.grafanaURL, second.key)], second.trace)
  }

  /**
   * CreateSnapshotHandler (main.go:129-171) given the defaults, the outcome of
   * binding the request body and the browser behind a new tab.
   */
  function SnapshotHandlerRun(cfg: Credentials, bound: Result<SnapshotRequest, string>, b: Browser): HandlerRun
  {
    if !Complete(cfg) then HandlerRun([Response(500, ErrorBody(Unconfigured))], [])
    else
      match bound
      case Failure(msg) => HandlerRun([Response(400, ErrorBody(BindError(msg)))], [])
      case Success(req) =>
        var first := SnapshotRun(b, [], cfg.grafanaURL, req);
        match first.err
        case None => HandlerRun([LinkResponse(cfg.grafanaURL, first.key)], first.trace)
        case Some(err) =>
          if IsNeedLogin(err) && Complete(cfg) then Relogin(cfg, req, b, first.trace)
          else HandlerRun([Response(500, ErrorBody(err))], first.trace)
  }

  /**
   * LoginAndCreateSnapshotHandler (main.go:174-206) given the defaults, the
   * outcome of binding the request body and the browser of the new process.
   */
  function LoginSnapshotHandlerRun(cfg: Credentials, bound: Result<LoginSnapshotRequest, string>, b: Browser): HandlerRun
  {
    match bound
    case Failure(msg) => HandlerRun([Response(400, ErrorBody(BindError(msg)))], [])
    case Success(r) =>
      var login := LoginRun(b, [], Credentials(r.grafanaURL, r.username, r.password));
      if login.outcome.Failed? then HandlerRun([Response(500, ErrorBody(login.outcome.err))], login.trace)
      else
        var a := SnapshotRun(b, login.trace, r.grafanaURL, r.snapshot);
        match a.err
        case Some(err) => HandlerRun([Response(500, ErrorBody(err))], a.trace)
        case None => HandlerRun([LinkResponse(cfg.grafanaURL, a.key)], a.trace)
  }

  /** The relogin branch on the handler's tab: the responses it writes. */
  method ReloginAndRetry(tab: Tab, cfg: Credentials, req: SnapshotRequest) returns (responses: seq<Response>)
    modifies tab
    ensures HandlerRun(responses, tab.trace) == Relogin(cfg, req, tab.browser, old(tab.trace))
  {
    ghost var b, h := tab.browser, tab.trace;
    var login := LoginGrafana(tab, cfg);
    ghost var e := LoginRun(b, h, cfg);
    assert login == e.outcome && tab.trace == e.trace;
    responses := if login.Failed? then [Response(500, ErrorBody(Wrapped("relogin error", login.err)))] else [];
    var snapshotKey, err := CreateSnapshot(tab, cfg.grafanaURL, req);
    ghost var second := SnapshotRun(b, e.trace, cfg.grafanaURL, req);
    assert snapshotKey == second.key && err == second.err && tab.trace == second.trace;
    if err.Some? {
      responses := responses + [Response(500, ErrorBody(Wrapped("retry create snapshot error", err.value)))];
    } else {
      responses := responses + [LinkResponse(cfg.grafanaURL, snapshotKey)];
    }
  }

  /** CreateSnapshotHandler: one new tab, up to two attempts with one relogin between them. */
  method CreateSnapshotHandler(cfg: Credentials, bound: Result<SnapshotRequest, string>, b: Browser)
    returns (responses: seq<Response>, trace: seq<Action>)
    ensures HandlerRun(responses, trace) == SnapshotHandlerRun(cfg, bound, b)
  {
    if cfg.grafanaURL == "" || cfg.username == "" || cfg.password == "" {
      return [Response(500, ErrorBody(Unconfigured))], [];
    }
    if bound.Failure? {
      return [Response(400, ErrorBody(BindError(bound.error)))], [];
    }
    var req := bound.value;
    var tab := new Tab(b);
    var snapshotKey, err := CreateSnapshot(tab, cfg.grafanaURL, req);
    if err.Some? {
      if IsNeedLogin(err.value) && cfg.grafanaURL != "" && cfg.username != "" && cfg.password != "" {
        responses := ReloginAndRetry(tab, cfg, req);
        return responses, tab.trace;
      }
      return [Response(500, ErrorBody(err.value))], tab.trace;
    }
    return [LinkResponse(cfg.grafanaURL, snapshotKey)], tab.trace;
  }

  /** LoginAndCreateSnapshotHandler: login, then one attempt, on a tab of a new browser. */
  method LoginAndCreateSnapshotHandler(cfg: Credentials, bound: Result<LoginSnapshotRequest, string>, b: Browser)
    returns (responses: seq<Response>, trace: seq<Action>)
    ensures HandlerRun(responses, trace) == LoginSnapshotHandlerRun(cfg, bound, b)
  {
    if bound.Failure? {
      return [Response(400, ErrorBody(BindError(bound.error)))], [];
    }
    var r := bound.value;
    var tab := new Tab(b);
    var login := LoginGrafana(tab, Credentials(r.grafanaURL, r.username, r.password));
    if login.Failed? {
      return [Response(500, ErrorBody(login.err))], tab.trace;
    }
    var snapshotKey, err := CreateSnapshot(tab, r.grafanaURL, r.snapshot);
    if err.Some? {
      return [Response(500, ErrorBody(err.value))], tab.trace;
    }
    return [LinkResponse(cfg.grafanaURL, snapshotKey)], tab.trace;
  }

  // ---------------------------------------------------------------- properties

  /**
   * Without all three defaults the handler answers 500 before binding the body
   * or sending anything to a browser; with them, a body that does not bind is
   * answered 400, again before any browser step.
   */
  lemma NotConfiguredOrUnbound(cfg: Credentials, bound: Result<SnapshotRequest, string>, b: Browser)
    requires !Complete(cfg) || bound.Failure?
    ensures var r := SnapshotHandlerRun(cfg, bound, b);
      && r.trace == []
      && |r.responses| == 1
      && r.responses[0].status == (if !Complete(cfg) then 500 else 400)
      && (!Complete(cfg) ==> r.responses[0].body == ErrorBody(Unconfigured))
  {
  }

  /** One attempt's history: the attempt sends the dashboard navigation once and never logs in. */
  lemma {:induction false} AttemptCounts(b: Browser, h: seq<Action>, grafanaURL: string, req: SnapshotRequest)
    ensures var a := SnapshotRun(b, h, grafanaURL, req);
      && |h| < |a.trace| && a.trace[..|h|] == h
      && multiset(a.trace) == multiset(h) + multiset(a.trace[|h|..])
      && multiset(a.trace[|h|..])[DashboardNavigation(grafanaURL, req)] == 1
      && multiset(a.trace[|h|..])[Viewport] == 0
  {
    var a := SnapshotRun(b, h, grafanaURL, req);
    SnapshotRunAppends(b, h, grafanaURL, req);
    var k := |a.trace| - |h|;
    assert a.trace[|h|..] == SnapshotSteps(grafanaURL, req)[..k];
    assert a.trace == h + a.trace[|h|..];
    SnapshotPrefixCounts(grafanaURL, req, k);
  }

  /** One login's history: the login sets the viewport once and never opens a dashboard. */
  lemma {:induction false} LoginCounts(b: Browser, h: seq<Action>, c: Credentials, req: SnapshotRequest)
    ensures var e := LoginRun(b, h, c);
      && |h| < |e.trace| && e.trace[..|h|] == h
      && multiset(e.trace) == multiset(h) + multiset(e.trace[|h|..])
      && multiset(e.trace[|h|..])[DashboardNavigation(c.grafanaURL, req)] == 0
      && multiset(e.trace[|h|..])[Viewport] == 1
  {
    var e := LoginRun(b, h, c);
    LoginRunAppends(b, h, c);
    var k := |e.trace| - |h|;
    assert e.trace[|h|..] == LoginSteps(c)[..k];
    assert e.trace == h + e.trace[|h|..];
    DashboardURLIsNotLoginURL(c.grafanaURL, req.dashboardId, req.from, req.to, req.query);
    LoginPrefixCounts(c, DashboardURL(c.grafanaURL, req.dashboardId, req.from, req.to, req.query), k);
  }

  /**
   * Bounded retry: the handler logs in again only when the first attempt
   * reports ErrDashboardNeedLogin, then logs in exactly once and attempts the
   * snapshot exactly twice; otherwise it attempts once and never logs in. It
   * writes one response, or two when the relogin fails.
   */
  lemma {:induction false} RetryIsBounded(cfg: Credentials, req: SnapshotRequest, b: Browser)
    requires Complete(cfg)
    ensures var r := SnapshotHandlerRun(cfg, Success(req), b);
      var first := SnapshotRun(b, [], cfg.grafanaURL, req);
      var retried := first.err.Some? && IsNeedLogin(first.err.value);
      && multiset(r.trace)[Viewport] == (if retried then 1 else 0)
      && multiset(r.trace)[DashboardNavigation(cfg.grafanaURL, req)] == (if retried then 2 else 1)
      && 1 <= |r.responses| <= 2
      && (|r.responses| == 2 ==> retried)
  {
    var first := SnapshotRun(b, [], cfg.grafanaURL, req);
    AttemptCounts(b, [], cfg.grafanaURL, req);
    assert first.trace[0..] == first.trace;
    if first.err.Some? && IsNeedLogin(first.err.value) {
      var login := LoginRun(b, first.trace, cfg);
      LoginCounts(b, first.trace, cfg, req);
      AttemptCounts(b, login.trace, cfg.grafanaURL, req);
    }
  }

  /**
   * A first error other than ErrDashboardNeedLogin is answered 500 with that
   * error and nothing after the attempt; no login is tried.
   */
  lemma {:induction false} OtherErrorsAreFinal(cfg: Credentials, req: SnapshotRequest, b: Browser)
    requires Complete(cfg)
    requires SnapshotRun(b, [], cfg.grafanaURL, req).err.Some?
    requires !IsNeedLogin(SnapshotRun(b, [], cfg.grafanaURL, req).err.value)
    ensures var r := SnapshotHandlerRun(cfg, Success(req), b);
      && r.responses == [Response(500, ErrorBody(SnapshotRun(b, [], cfg.grafanaURL, req).err.value))]
      && r.trace == SnapshotRun(b, [], cfg.grafanaURL, req).trace
      && Viewport !in r.trace
  {
    RetryIsBounded(cfg, req, b);
  }

  /**
   * The second attempt is the last: when it fails, even again with
   * ErrDashboardNeedLogin, the last response is a 500 carrying its error
   * (still recognised as ErrDashboardNeedLogin through the wrapping), and the
   * tab has seen nothing after it.
   */
  lemma {:induction false} SecondFailureIsFinal(cfg: Credentials, req: SnapshotRequest, b: Browser)
    requires Complete(cfg)
    requires SnapshotRun(b, [], cfg.grafanaURL, req).err.Some?
    requires IsNeedLogin(SnapshotRun(b, [], cfg.grafanaURL, req).err.value)
    requires var login := LoginRun(b, SnapshotRun(b, [], cfg.grafanaURL, req).trace, cfg);
      SnapshotRun(b, login.trace, cfg.grafanaURL, req).err.Some?
    ensures var r := SnapshotHandlerRun(cfg, Success(req), b);
      var login := LoginRun(b, SnapshotRun(b, [], cfg.grafanaURL, req).trace, cfg);
      var second := SnapshotRun(b, login.trace, cfg.grafanaURL, req);
      && r.responses[|r.responses| - 1] == Response(500, ErrorBody(Wrapped("retry create snapshot error", second.err.value)))
      && (IsNeedLogin(second.err.value) ==> IsNeedLogin(r.responses[|r.responses| - 1].body.err))
      && r.trace == second.trace
      && forall i | 0 <= i < |r.responses| :: r.responses[i].status == 500
  {
    ReloginResponses(cfg, req, b, SnapshotRun(b, [], cfg.grafanaURL, req).trace);
  }

  /** The responses of the relogin branch: the relogin error if any, then the second attempt's. */
  lemma ReloginResponses(cfg: Credentials, req: SnapshotRequest, b: Browser, after: seq<Action>)
    ensures var r := Relogin(cfg, req, b, after);
      var login := LoginRun(b, after, cfg);
      var second := SnapshotRun(b, login.trace, cfg.grafanaURL, req);
      && |r.responses| == (if login.outcome.Failed? then 2 else 1)
      && r.trace == second.trace
      && (login.outcome.Failed? ==> r.responses[0] == Response(500, ErrorBody(Wrapped("relogin error", login.outcome.err))))
      && r.responses[|r.responses| - 1]
         == (if second.err.Some? then Response(500, ErrorBody(Wrapped("retry create snapshot error", second.err.value)))
             else LinkResponse(cfg.grafanaURL, second.key))
  {
  }

  /**
   * A failed relogin does not stop the retry: the handler writes the 500 for
   * the relogin error and still runs the second attempt, whose outcome is a
   * second response.
   */
  lemma {:induction false} ReloginFailureStillRetries(cfg: Credentials, req: SnapshotRequest, b: Browser)
    requires Complete(cfg)
    requires SnapshotRun(b, [], cfg.grafanaURL, req).err.Some?
    requires IsNeedLogin(SnapshotRun(b, [], cfg.grafanaURL, req).err.value)
    requires LoginRun(b, SnapshotRun(b, [], cfg.grafanaURL, req).trace, cfg).outcome.Failed?
    ensures var r := SnapshotHandlerRun(cfg, Success(req), b);
      var login := LoginRun(b, SnapshotRun(b, [], cfg.grafanaURL, req).trace, cfg);
      var second := SnapshotRun(b, login.trace, cfg.grafanaURL, req);
      && |r.responses| == 2
      && r.responses[0] == Response(500, ErrorBody(Wrapped("relogin error", login.outcome.err)))
      && r.responses[1].status == (if second.err.None? then 200 else 500)
      && multiset(r.trace)[DashboardNavigation(cfg.grafanaURL, req)] == 2
  {
    RetryIsBounded(cfg, req, b);
  }

  /**
   * The handler's last response is 200 exactly when an attempt succeeded, and
   * its link is the default Grafana URL with that attempt's key.
   */
  lemma {:induction false} SuccessCarriesKey(cfg: Credentials, req: SnapshotRequest, b: Browser)
    requires Complete(cfg)
    ensures var r := SnapshotHandlerRun(cfg, Success(req), b);
      var first := SnapshotRun(b, [], cfg.grafanaURL, req);
      var login := LoginRun(b, first.trace, cfg);
      var second := SnapshotRun(b, login.trace, cfg.grafanaURL, req);
      var last := r.responses[|r.responses| - 1];
      && (first.err.None? ==> r.responses == [LinkResponse(cfg.grafanaURL, first.key)] && r.trace == first.trace)
      && (last.status == 200 <==> first.err.None? || (IsNeedLogin(first.err.value) && second.err.None?))
      && (last.status == 200 ==>
            last.body == Link(SnapshotLink(cfg.grafanaURL, if first.err.None? then first.key else second.key)))
  {
    ReloginResponses(cfg, req, b, SnapshotRun(b, [], cfg.grafanaURL, req).trace);
  }

  /**
   * /login_and_snapshot logs in exactly once, attempts the snapshot only after
   * a successful login and at most once, and writes exactly one response.
   */
  lemma {:induction false} LoginThenOneAttempt(cfg: Credentials, r: LoginSnapshotRequest, b: Browser)
    ensures var run := LoginSnapshotHandlerRun(cfg, Success(r), b);
      var login := LoginRun(b, [], Credentials(r.grafanaURL, r.username, r.password));
      && |run.responses| == 1
      && multiset(run.trace)[Viewport] == 1
      && multiset(run.trace)[DashboardNavigation(r.grafanaURL, r.snapshot)] == (if login.outcome.Done? then 1 else 0)
      && (login.outcome.Failed? ==> run.responses == [Response(500, ErrorBody(login.outcome.err))] && run.trace == login.trace)
  {
    var c := Credentials(r.grafanaURL, r.username, r.password);
    var login := LoginRun(b, [], c);
    LoginCounts(b, [], c, r.snapshot);
    assert login.trace[0..] == login.trace;
    if login.outcome.Done? {
      AttemptCounts(b, login.trace, r.grafanaURL, r.snapshot);
    }
  }

  /**
   * The link /login_and_snapshot returns is built on the default Grafana URL,
   * not on the Grafana URL of the request that the snapshot was taken on.
   */
  lemma {:induction false} LinkUsesDefaultURL(cfg: Credentials, r: LoginSnapshotRequest, b: Browser)
    ensures var run := LoginSnapshotHandlerRun(cfg, Success(r), b);
      var login := LoginRun(b, [], Credentials(r.grafanaURL, r.username, r.password));
      var a := SnapshotRun(b, login.trace, r.grafanaURL, r.snapshot);
      && (run.responses[0].status == 200 <==> login.outcome.Done? && a.err.None?)
      && (run.responses[0].status == 200 ==> run.responses[0].body == Link(SnapshotLink(cfg.grafanaURL, a.key)))
  {
  }
}
