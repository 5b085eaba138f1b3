/**
 * The chromedp layer as the service uses it: primitive browser actions, the
 * browser itself as an oracle that answers each action given everything sent
 * to the tab before it, and the chromedp.Tasks interpreter that runs a task
 * list in order and stops at the first error.
 */
module Driver {
  import opened GoPath

  /** How a Click finds its element (chromedp.ByID, chromedp.BySearch, or no option). */
  datatype By = ByDefault | ByID | BySearch

  /** The chromedp primitives main.go uses. */
  datatype Action =
    | EmulateViewport(width: int, height: int)
    | Navigate(url: string)
    | Sleep(seconds: nat)
    | FullScreenshot(quality: int)
    | WaitReady(selector: string)
    | WaitNotPresent(selector: string)
    | Click(selector: string, option: By)
    | SendKeys(selector: string, keys: string)
    | KeyEvent(keys: string)
    | Location
    | Value(selector: string)

  /** What the browser answers to one primitive: success (with the text a read returns) or an error. */
  datatype Reply = Ok(text: string) | Fail(cause: string)

  /**
   * A browser tab seen from outside: its answer to the next action, given the
   * actions already sent to it. Timeouts and a cancelled context are answers too.
   */
  type Browser = (seq<Action>, Action) -> Reply

  /** The errors the service produces or passes on. */
  datatype Error =
    | StepError(cause: string)             // a chromedp primitive failed
    | NeedLogin                            // ErrDashboardNeedLogin
    | UrlError(raw: string, reason: string)// url.Parse rejected the snapshot URL
    | Unconfigured                         // default Grafana URL, user or password unset
    | BindError(message: string)           // the request body did not bind
    | Wrapped(context: string, inner: Error) // fmt.Errorf("<context>: %w", inner)

  /** errors.Is(err, ErrDashboardNeedLogin), which looks through %w wrapping. */
  predicate IsNeedLogin(e: Error)
  {
    match e
    case NeedLogin => true
    case Wrapped(_, inner) => IsNeedLogin(inner)
    case _ => false
  }

  /** The result of running a list: the values read, in order, or the error that stopped it. */
  datatype Outcome = Done(values: seq<string>) | Failed(err: Error)

  /** An outcome together with the tab's history afterwards. */
  datatype Execution = Execution(outcome: Outcome, trace: seq<Action>)

  /**
   * The tasks of a chromedp.Tasks list: a primitive, or one of the two
   * ActionFunc closures of main.go, each of which reads the location with a
   * probe and then decides.
   */
  datatype Task =
    | Do(action: Action)
      // main.go:230-249: after the probe, stop with success unless on the login page; else run submit
    | SkipIfLoggedIn(probe: seq<Action>, submit: seq<Action>)
      // main.go:268-298: run render, then the probe; fail with NeedLogin when on the login page
    | FailIfLoginPage(render: seq<Action>, probe: seq<Action>)

  /** The test that the browser shows the login page: path.Base of the raw location is "login". */
  predicate IsLoginLocation(location: string)
  {
    Base(location) == "login"
  }

  /** The values Location and Value store; other primitives read nothing. */
  function ReadsOf(a: Action, text: string): seq<string>
  {
    if a.Location? || a.Value? then [text] else []
  }

  /** A Go string variable a read stores into: the last value read, "" before any. */
  function LastRead(values: seq<string>): string
  {
    if values == [] then "" else values[|values| - 1]
  }

  /**
   * Runs primitives in order from history h, with the values read so far;
   * the first failing primitive ends the run with its error.
   */
  function RunActionsFrom(b: Browser, h: seq<Action>, values: seq<string>, acts: seq<Action>): Execution
    decreases |acts|
  {
    if acts == [] then Execution(Done(values), h)
    else
      match b(h, acts[0])
      case Fail(cause) => Execution(Failed(StepError(cause)), h + [acts[0]])
      case Ok(text) => RunActionsFrom(b, h + [acts[0]], values + ReadsOf(acts[0], text), acts[1..])
  }

  function RunActions(b: Browser, h: seq<Action>, acts: seq<Action>): Execution
  {
    RunActionsFrom(b, h, [], acts)
  }

  /** One element of a task list; the closures report only an error, never a read. */
  function RunTask(b: Browser, h: seq<Action>, t: Task): Execution
  {
    match t
    case Do(a) => RunActions(b, h, [a])
    case SkipIfLoggedIn(probe, submit) =>
      var p := RunActions(b, h, probe);
      if p.outcome.Failed? then p
      else if !IsLoginLocation(LastRead(p.outcome.values)) then Execution(Done([]), p.trace)
      else
        var s := RunActions(b, p.trace, submit);
        Execution(if s.outcome.Failed? then s.outcome else Done([]), s.trace)
    case FailIfLoginPage(render, probe) =>
      var r := RunActions(b, h, render);
      if r.outcome.Failed? then r
      else
        var p := RunActions(b, r.trace, probe);
        if p.outcome.Failed? then p
        else if IsLoginLocation(LastRead(p.outcome.values)) then Execution(Failed(NeedLogin), p.trace)
        else Execution(Done([]), p.trace)
  }

  /** chromedp.Tasks.Do: the tasks in order, stopping at the first error. */
  function RunTasksFrom(b: Browser, h: seq<Action>, values: seq<string>, ts: seq<Task>): Execution
    decreases |ts|
  {
    if ts == [] then Execution(Done(values), h)
    else
      var e := RunTask(b, h, ts[0]);
      match e.outcome
      case Failed(_) => e
      case Done(more) => RunTasksFrom(b, e.trace, values + more, ts[1..])
  }

  function RunTasks(b: Browser, h: seq<Action>, ts: seq<Task>): Execution
  {
    RunTasksFrom(b, h, [], ts)
  }

  /**
   * A run of primitives only appends to the history: the steps it sent are a
   * prefix of the list, all of it when the run succeeds; a failure is the
   * step error of the last step sent.
   */
  lemma {:induction false} RunActionsTrace(b: Browser, h: seq<Action>, values: seq<string>, acts: seq<Action>)
    ensures var e := RunActionsFrom(b, h, values, acts);
      && |h| <= |e.trace| <= |h| + |acts|
      && e.trace == h + acts[..|e.trace| - |h|]
      && (e.outcome.Done? ==> e.trace == h + acts && e.outcome.values == values + ReadsAlong(b, h, acts))
      && (e.outcome.Failed? ==> e.outcome.err.StepError? && |e.trace| > |h|)
    decreases |acts|
  {
    if acts == [] {
      assert h + acts[..0] == h && values + [] == values;
    } else {
      match b(h, acts[0])
      case Fail(cause) =>
        assert acts[..1] == [acts[0]];
      case Ok(text) =>
        var e := RunActionsFrom(b, h + [acts[0]], values + ReadsOf(acts[0], text), acts[1..]);
        RunActionsTrace(b, h + [acts[0]], values + ReadsOf(acts[0], text), acts[1..]);
        assert acts[..|e.trace| - |h|] == [acts[0]] + acts[1..][..|e.trace| - |h| - 1];
        assert h + [acts[0]] + acts[1..] == h + acts;
        assert values + ReadsOf(acts[0], text) + ReadsAlong(b, h + [acts[0]], acts[1..])
            == values + ReadsAlong(b, h, acts);
    }
  }

  /** One task only appends to the history, and fails with a step error or NeedLogin. */
  lemma RunTaskTrace(b: Browser, h: seq<Action>, t: Task)
    ensures var e := RunTask(b, h, t);
      && |h| <= |e.trace| && e.trace[..|h|] == h
      && (e.outcome.Failed? ==> e.outcome.err.StepError? || e.outcome.err.NeedLogin?)
  {
    match t
    case Do(a) =>
      RunActionsTrace(b, h, [], [a]);
    case SkipIfLoggedIn(probe, submit) =>
      var p := RunActions(b, h, probe);
      ExtendsHistory(b, h, probe);
      if p.outcome.Done? && IsLoginLocation(LastRead(p.outcome.values)) {
        ExtendsHistory(b, p.trace, submit);
        var s := RunActions(b, p.trace, submit);
        assert s.trace[..|p.trace|] == p.trace;
      }
    case FailIfLoginPage(render, probe) =>
      var r := RunActions(b, h, render);
      ExtendsHistory(b, h, render);
      if r.outcome.Done? {
        ExtendsHistory(b, r.trace, probe);
        var p := RunActions(b, r.trace, probe);
        assert p.trace[..|r.trace|] == r.trace;
      }
  }

  /** The part of RunActionsTrace that RunTaskTrace needs. */
  lemma ExtendsHistory(b: Browser, h: seq<Action>, acts: seq<Action>)
    ensures var e := RunActions(b, h, acts);
      && |h| <= |e.trace| && e.trace[..|h|] == h
      && (e.outcome.Failed? ==> e.outcome.err.StepError?)
  {
    RunActionsTrace(b, h, [], acts);
  }

  /** A task list only appends to the history, and fails with a step error or NeedLogin. */
  lemma {:induction false} RunTasksTrace(b: Browser, h: seq<Action>, values: seq<string>, ts: seq<Task>)
    ensures var e := RunTasksFrom(b, h, values, ts);
      && |h| <= |e.trace| && e.trace[..|h|] == h
      && (e.outcome.Failed? ==> e.outcome.err.StepError? || e.outcome.err.NeedLogin?)
    decreases |ts|
  {
    if ts != [] {
      var e := RunTask(b, h, ts[0]);
      RunTaskTrace(b, h, ts[0]);
      if e.outcome.Done? {
        RunTasksTrace(b, e.trace, values + e.outcome.values, ts[1..]);
        var rest := RunTasksFrom(b, e.trace, values + e.outcome.values, ts[1..]);
        assert rest.trace[..|e.trace|] == e.trace;
      }
    }
  }

  /** The first step of a non-empty list decides whether the rest runs. */
  lemma RunActionsCons(b: Browser, h: seq<Action>, values: seq<string>, a: Action, rest: seq<Action>)
    ensures b(h, a).Fail? ==>
      RunActionsFrom(b, h, values, [a] + rest) == Execution(Failed(StepError(b(h, a).cause)), h + [a])
    ensures b(h, a).Ok? ==>
      RunActionsFrom(b, h, values, [a] + rest) == RunActionsFrom(b, h + [a], values + ReadsOf(a, b(h, a).text), rest)
  {
    assert ([a] + rest)[0] == a && ([a] + rest)[1..] == rest;
  }

  /** A single primitive. */
  lemma RunActionsOne(b: Browser, h: seq<Action>, values: seq<string>, a: Action)
    ensures b(h, a).Fail? ==>
      RunActionsFrom(b, h, values, [a]) == Execution(Failed(StepError(b(h, a).cause)), h + [a])
    ensures b(h, a).Ok? ==>
      RunActionsFrom(b, h, values, [a]) == Execution(Done(values + ReadsOf(a, b(h, a).text)), h + [a])
  {
    RunActionsCons(b, h, values, a, []);
    assert [a] + [] == [a];
  }

  /** The first task of a non-empty list decides whether the rest runs. */
  lemma RunTasksCons(b: Browser, h: seq<Action>, values: seq<string>, t: Task, rest: seq<Task>)
    ensures RunTasksFrom(b, h, values, [t] + rest) ==
      var e := RunTask(b, h, t);
      if e.outcome.Failed? then e else RunTasksFrom(b, e.trace, values + e.outcome.values, rest)
  {
    assert ([t] + rest)[0] == t && ([t] + rest)[1..] == rest;
  }

  /** Every primitive of acts answered with success, in order. */
  predicate AllOk(b: Browser, h: seq<Action>, acts: seq<Action>)
    decreases |acts|
  {
    acts == [] || (b(h, acts[0]).Ok? && AllOk(b, h + [acts[0]], acts[1..]))
  }

  /** The values the values among acts return when every step before them succeeds. */
  function ReadsAlong(b: Browser, h: seq<Action>, acts: seq<Action>): seq<string>
    decreases |acts|
  {
    if acts == [] then []
    else
      match b(h, acts[0])
      case Fail(_) => []
      case Ok(text) => ReadsOf(acts[0], text) + ReadsAlong(b, h + [acts[0]], acts[1..])
  }

  /** A list whose every primitive succeeds runs to its end and returns exactly their values. */
  lemma {:induction false} RunActionsAllOk(b: Browser, h: seq<Action>, values: seq<string>, acts: seq<Action>)
    requires AllOk(b, h, acts)
    ensures RunActionsFrom(b, h, values, acts) == Execution(Done(values + ReadsAlong(b, h, acts)), h + acts)
    decreases |acts|
  {
    if acts == [] {
      assert values + [] == values && h + [] == h;
    } else {
      var text := b(h, acts[0]).text;
      RunActionsAllOk(b, h + [acts[0]], values + ReadsOf(acts[0], text), acts[1..]);
      assert values + ReadsOf(acts[0], text) + ReadsAlong(b, h + [acts[0]], acts[1..])
          == values + ReadsAlong(b, h, acts);
      assert h + [acts[0]] + acts[1..] == h + acts;
    }
  }

  /**
   * The first failing primitive aborts the list: the run ends with that step's
   * error and the tab has seen exactly the steps up to and including it.
   */
  lemma {:induction false} RunActionsFirstFailure(b: Browser, h: seq<Action>, values: seq<string>, acts: seq<Action>, k: nat)
    requires k < |acts| && AllOk(b, h, acts[..k]) && b(h + acts[..k], acts[k]).Fail?
    ensures RunActionsFrom(b, h, values, acts)
         == Execution(Failed(StepError(b(h + acts[..k], acts[k]).cause)), h + acts[..k + 1])
    decreases k
  {
    if k == 0 {
      assert h + acts[..0] == h;
      assert acts[..1] == [acts[0]];
    } else {
      assert acts[..k][0] == acts[0];
      assert acts[..k][1..] == acts[1..][..k - 1];
      var text := b(h, acts[0]).text;
      assert h + acts[..k] == (h + [acts[0]]) + acts[1..][..k - 1];
      assert h + acts[..k + 1] == (h + [acts[0]]) + acts[1..][..k];
      RunActionsFirstFailure(b, h + [acts[0]], values + ReadsOf(acts[0], text), acts[1..], k - 1);
    }
  }

  /** A list runs to its end exactly when every primitive in it succeeds. */
  lemma {:induction false} RunActionsDoneIff(b: Browser, h: seq<Action>, values: seq<string>, acts: seq<Action>)
    ensures RunActionsFrom(b, h, values, acts).outcome.Done? <==> AllOk(b, h, acts)
    decreases |acts|
  {
    if acts != [] {
      match b(h, acts[0])
      case Fail(_) =>
      case Ok(text) => RunActionsDoneIff(b, h + [acts[0]], values + ReadsOf(acts[0], text), acts[1..]);
    }
  }

  /** Running xs + ys is running xs, then ys from where xs stopped, unless xs failed. */
  lemma {:induction false} RunActionsAppend(b: Browser, h: seq<Action>, values: seq<string>, xs: seq<Action>, ys: seq<Action>)
    ensures RunActionsFrom(b, h, values, xs + ys) ==
      var e := RunActionsFrom(b, h, values, xs);
      if e.outcome.Failed? then e else RunActionsFrom(b, e.trace, e.outcome.values, ys)
    decreases |xs|
  {
    if xs == [] {
      assert xs + ys == ys;
    } else {
      assert (xs + ys)[0] == xs[0];
      assert (xs + ys)[1..] == xs[1..] + ys;
      match b(h, xs[0])
      case Fail(_) =>
      case Ok(text) => RunActionsAppend(b, h + [xs[0]], values + ReadsOf(xs[0], text), xs[1..], ys);
    }
  }

  /** A task list of primitives only, in order. */
  function DoAll(acts: seq<Action>): seq<Task>
    decreases |acts|
  {
    if acts == [] then [] else [Do(acts[0])] + DoAll(acts[1..])
  }

  /** DoAll distributes over concatenation. */
  lemma {:induction false} DoAllAppend(xs: seq<Action>, ys: seq<Action>)
    ensures DoAll(xs + ys) == DoAll(xs) + DoAll(ys)
    decreases |xs|
  {
    if xs != [] {
      assert (xs + ys)[1..] == xs[1..] + ys;
      DoAllAppend(xs[1..], ys);
    } else {
      assert xs + ys == ys;
    }
  }

  /** A task list of primitives runs exactly like the list of those primitives. */
  lemma {:induction false} RunDoAll(b: Browser, h: seq<Action>, values: seq<string>, acts: seq<Action>)
    ensures RunTasksFrom(b, h, values, DoAll(acts)) == RunActionsFrom(b, h, values, acts)
    decreases |acts|
  {
    if acts != [] {
      match b(h, acts[0])
      case Fail(_) =>
      case Ok(text) =>
        assert [acts[0]][1..] == [] && [] + ReadsOf(acts[0], text) == ReadsOf(acts[0], text);
        assert RunActionsFrom(b, h + [acts[0]], ReadsOf(acts[0], text), [])
            == Execution(Done(ReadsOf(acts[0], text)), h + [acts[0]]);
        assert RunTask(b, h, Do(acts[0])) == Execution(Done(ReadsOf(acts[0], text)), h + [acts[0]]);
        RunDoAll(b, h + [acts[0]], values + ReadsOf(acts[0], text), acts[1..]);
    }
  }

  /** Running ts + us is running ts, then us from where ts stopped, unless ts failed. */
  lemma {:induction false} RunTasksAppend(b: Browser, h: seq<Action>, values: seq<string>, ts: seq<Task>, us: seq<Task>)
    ensures RunTasksFrom(b, h, values, ts + us) ==
      var e := RunTasksFrom(b, h, values, ts);
      if e.outcome.Failed? then e else RunTasksFrom(b, e.trace, e.outcome.values, us)
    decreases |ts|
  {
    if ts == [] {
      assert ts + us == us;
    } else {
      assert (ts + us)[0] == ts[0];
      assert (ts + us)[1..] == ts[1..] + us;
      var e := RunTask(b, h, ts[0]);
      if e.outcome.Done? {
        RunTasksAppend(b, e.trace, values + e.outcome.values, ts[1..], us);
      }
    }
  }

  /** A probe that succeeds away from the login page makes SkipIfLoggedIn succeed after the probe alone. */
  lemma SkipIfLoggedInSkips(b: Browser, h: seq<Action>, probe: seq<Action>, submit: seq<Action>)
    requires AllOk(b, h, probe) && !IsLoginLocation(LastRead(ReadsAlong(b, h, probe)))
    ensures RunTask(b, h, SkipIfLoggedIn(probe, submit)) == Execution(Done([]), h + probe)
  {
    RunActionsAllOk(b, h, [], probe);
    assert [] + ReadsAlong(b, h, probe) == ReadsAlong(b, h, probe);
  }

  /** A probe that succeeds on the login page makes SkipIfLoggedIn run submit in full, up to its first failure. */
  lemma SkipIfLoggedInSubmits(b: Browser, h: seq<Action>, probe: seq<Action>, submit: seq<Action>)
    requires AllOk(b, h, probe) && IsLoginLocation(LastRead(ReadsAlong(b, h, probe)))
    ensures var s := RunActions(b, h + probe, submit);
      RunTask(b, h, SkipIfLoggedIn(probe, submit)) == Execution(if s.outcome.Failed? then s.outcome else Done([]), s.trace)
    ensures AllOk(b, h + probe, submit) ==>
      RunTask(b, h, SkipIfLoggedIn(probe, submit)) == Execution(Done([]), h + probe + submit)
  {
    RunActionsAllOk(b, h, [], probe);
    assert [] + ReadsAlong(b, h, probe) == ReadsAlong(b, h, probe);
    if AllOk(b, h + probe, submit) {
      RunActionsAllOk(b, h + probe, [], submit);
    }
  }

  /** A history extension that is a prefix of xs is a prefix of xs + ys. */
  lemma PrefixOfLeft(h: seq<Action>, xs: seq<Action>, ys: seq<Action>, t: seq<Action>)
    requires |h| <= |t| <= |h| + |xs| && t == h + xs[..|t| - |h|]
    ensures |t| <= |h| + |xs + ys| && t == h + (xs + ys)[..|t| - |h|]
  {
    assert (xs + ys)[..|t| - |h|] == xs[..|t| - |h|];
  }

  /** A history extension by all of xs and then a prefix of ys is a prefix of xs + ys. */
  lemma PrefixOfRight(h: seq<Action>, xs: seq<Action>, ys: seq<Action>, t: seq<Action>)
    requires |h + xs| <= |t| <= |h + xs| + |ys| && t == h + xs + ys[..|t| - |h + xs|]
    ensures |h| <= |t| <= |h| + |xs + ys| && t == h + (xs + ys)[..|t| - |h|]
  {
    assert (xs + ys)[..|t| - |h|] == xs + ys[..|t| - |h + xs|];
  }

  /** A browser tab (a chromedp context): the oracle behind it and what it has been sent. */
  class Tab {
    const browser: Browser
    var trace: seq<Action>

    constructor (b: Browser)
      ensures browser == b && trace == []
    {
      browser := b;
      trace := [];
    }

    /** Sends one primitive to the browser. */
    method Perform(a: Action) returns (r: Reply)
      modifies this
      ensures r == browser(old(trace), a)
      ensures trace == old(trace) + [a]
    {
      r := browser(trace, a);
      trace := trace + [a];
    }

    /** chromedp.Run of primitives: in order, returning at the first error. */
    method PerformAll(acts: seq<Action>) returns (out: Outcome)
      modifies this
      ensures Execution(out, trace) == RunActionsFrom(browser, old(trace), [], acts)
    {
      var values: seq<string> := [];
      var i := 0;
      while i < |acts|
        invariant 0 <= i <= |acts|
        invariant RunActionsFrom(browser, old(trace), [], acts) == RunActionsFrom(browser, trace, values, acts[i..])
      {
        assert acts[i..][0] == acts[i] && acts[i..][1..] == acts[i + 1..];
        var r := Perform(acts[i]);
        if r.Fail? {
          return Failed(StepError(r.cause));
        }
        values := values + ReadsOf(acts[i], r.text);
        i := i + 1;
      }
      return Done(values);
    }

    /** One task: a primitive, or one of the two location-checking closures. */
    method PerformTask(t: Task) returns (out: Outcome)
      modifies this
      ensures Execution(out, trace) == RunTask(browser, old(trace), t)
    {
      match t
      case Do(a) =>
        out := PerformAll([a]);
      case SkipIfLoggedIn(probe, submit) =>
        out := PerformAll(probe);
        if out.Failed? {
          return;
        }
        if !IsLoginLocation(LastRead(out.values)) {
          return Done([]);
        }
        out := PerformAll(submit);
        if out.Done? {
          out := Done([]);
        }
      case FailIfLoginPage(render, probe) =>
        out := PerformAll(render);
        if out.Failed? {
          return;
        }
        // the screenshot file write happens here; its failure is only logged
        out := PerformAll(probe);
        if out.Failed? {
          return;
        }
        out := if IsLoginLocation(LastRead(out.values)) then Failed(NeedLogin) else Done([]);
    }

    /** chromedp.Run(ctx, tasks...): each task in order, stopping at the first error. */
    method Run(ts: seq<Task>) returns (out: Outcome)
      modifies this
      ensures Execution(out, trace) == RunTasks(browser, old(trace), ts)
    {
      var values: seq<string> := [];
      var i := 0;
      while i < |ts|
        invariant 0 <= i <= |ts|
        invariant RunTasks(browser, old(trace), ts) == RunTasksFrom(browser, trace, values, ts[i..])
      {
        assert ts[i..][0] == ts[i] && ts[i..][1..] == ts[i + 1..];
        var r := PerformTask(ts[i]);
        if r.Failed? {
          return r;
        }
        values := values + r.values;
        i := i + 1;
      }
      return Done(values);
    }
  }
}
