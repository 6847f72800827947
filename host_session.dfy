/**
 * One host's executor in main.go (`runCmdOnHost`, main.go:61-160): render
 * the command, resolve the target, then the connect/run loop.
 *
 * The SSH calls are not modelled; each pass of the loop is given as the
 * outcome it met, in order. A pass ends at the first setup step that fails
 * (`Dial`, `NewSession`, `StderrPipe`, `StdoutPipe`) or at `Run`, whose
 * error is either an `*ssh.ExitError` (the remote command exited non-zero)
 * or some other error (the transport broke).
 */
module HostSession {
  import opened Optional
  import opened Ssh
  import opened HostTarget

  datatype SetupStep = Dial | NewSession | StderrPipe | StdoutPipe

  /** What one pass of the `for {}` loop met. */
  datatype Attempt =
    | SetupFailed(step: SetupStep)
    | RunFailed(exitError: bool)
    | RunSucceeded

  /**
   * The reconnect policy: a setup failure goes round again exactly when
   * `reconnect` is set; a `Run` failure does so only when it is not an
   * `ExitError` and `reconnect` is set; a successful `Run` never does.
   */
  predicate Retries(a: Attempt, reconnect: bool)
    ensures Retries(a, reconnect) ==> reconnect
    ensures a.SetupFailed? ==> (Retries(a, reconnect) <==> reconnect)
    ensures a.RunFailed? && a.exitError ==> !Retries(a, reconnect)
    ensures a.RunFailed? && !a.exitError ==> (Retries(a, reconnect) <==> reconnect)
    ensures a.RunSucceeded? ==> !Retries(a, reconnect)
  {
    match a
    case SetupFailed(_) => reconnect
    case RunFailed(exitError) => !exitError && reconnect
    case RunSucceeded => false
  }

  /**
   * How the loop ends: after `attempts` passes, at the pass `last` that did
   * not go round again; or still retrying when the given outcomes run out.
   * `StillRetrying` only says the outcomes ran out, which can happen before
   * the first pass: with no outcomes it is `StillRetrying(0)`, even without
   * `reconnect`, where the Go loop would make one pass.
   */
  datatype LoopEnd = Stopped(attempts: nat, last: Attempt) | StillRetrying(attempts: nat)

  /**
   * The loop as a function of its outcomes: it stops at the first pass the
   * policy does not repeat, having repeated every pass before it.
   */
  function HostLoop(outcomes: seq<Attempt>, reconnect: bool): (e: LoopEnd)
    ensures e.Stopped? ==>
      1 <= e.attempts <= |outcomes| && e.last == outcomes[e.attempts - 1] &&
      !Retries(e.last, reconnect) &&
      forall j :: 0 <= j < e.attempts - 1 ==> Retries(outcomes[j], reconnect)
    ensures e.StillRetrying? ==>
      e.attempts == |outcomes| && forall j :: 0 <= j < |outcomes| ==> Retries(outcomes[j], reconnect)
  {
    if |outcomes| == 0 then StillRetrying(0)
    else if !Retries(outcomes[0], reconnect) then Stopped(1, outcomes[0])
    else
      match HostLoop(outcomes[1..], reconnect)
      case Stopped(n, last) => Stopped(n + 1, last)
      case StillRetrying(n) => StillRetrying(n + 1)
  }

  /** The loop stops at pass `k + 1` when pass `k` is the first one not repeated. */
  lemma {:induction false} StopsAtFirstNonRetry(outcomes: seq<Attempt>, reconnect: bool, k: nat)
    requires k < |outcomes| && !Retries(outcomes[k], reconnect)
    requires forall j :: 0 <= j < k ==> Retries(outcomes[j], reconnect)
    ensures HostLoop(outcomes, reconnect) == Stopped(k + 1, outcomes[k])
  {
    if k > 0 {
      StopsAtFirstNonRetry(outcomes[1..], reconnect, k - 1);
    }
  }

  /** When every given pass is repeated, the loop is still going after all of them. */
  lemma {:induction false} RetriesThroughout(outcomes: seq<Attempt>, reconnect: bool)
    requires forall j :: 0 <= j < |outcomes| ==> Retries(outcomes[j], reconnect)
    ensures HostLoop(outcomes, reconnect) == StillRetrying(|outcomes|)
  {
    if |outcomes| > 0 {
      RetriesThroughout(outcomes[1..], reconnect);
    }
  }

  /**
   * The `for {}` loop of main.go:112-160, with its `continue`, `return` and
   * `break` on each step's outcome.
   */
  method RetryLoop(outcomes: seq<Attempt>, reconnect: bool) returns (e: LoopEnd)
    ensures e == HostLoop(outcomes, reconnect)
  {
    var i := 0;
    while i < |outcomes|
      invariant 0 <= i <= |outcomes|
      invariant forall j :: 0 <= j < i ==> Retries(outcomes[j], reconnect)
    {
      var a := outcomes[i];
      match a {
        case SetupFailed(_) =>
          if !reconnect {
            StopsAtFirstNonRetry(outcomes, reconnect, i);
            return Stopped(i + 1, a);
          }
        case RunFailed(exitError) =>
          if exitError || !reconnect {
            StopsAtFirstNonRetry(outcomes, reconnect, i);
            return Stopped(i + 1, a);
          }
        case RunSucceeded =>
          StopsAtFirstNonRetry(outcomes, reconnect, i);
          return Stopped(i + 1, a);
      }
      i := i + 1;
    }
    RetriesThroughout(outcomes, reconnect);
    return StillRetrying(|outcomes|);
  }

  /** Without `reconnect` there is exactly one pass, whatever it meets. */
  lemma NoReconnectOnePass(outcomes: seq<Attempt>)
    requires |outcomes| >= 1
    ensures HostLoop(outcomes, false) == Stopped(1, outcomes[0])
  {
    StopsAtFirstNonRetry(outcomes, false, 0);
  }

  /** A remote command that exits non-zero ends the host, with or without `reconnect`. */
  lemma ExitErrorIsTerminal(outcomes: seq<Attempt>, reconnect: bool, k: nat)
    requires k < |outcomes| && outcomes[k] == RunFailed(true)
    requires forall j :: 0 <= j < k ==> Retries(outcomes[j], reconnect)
    ensures HostLoop(outcomes, reconnect) == Stopped(k + 1, RunFailed(true))
  {
    StopsAtFirstNonRetry(outcomes, reconnect, k);
  }

  /** A transport failure of `Run` is retried exactly when `reconnect` is set. */
  lemma TransportFailureRetriedIffReconnect(reconnect: bool, rest: seq<Attempt>)
    ensures HostLoop([RunFailed(false)] + rest, reconnect).attempts ==
      if reconnect then 1 + HostLoop(rest, reconnect).attempts else 1
  {
    assert ([RunFailed(false)] + rest)[1..] == rest;
  }

  /**
   * With `reconnect` on, `k` failed connection attempts followed by a
   * successful run take exactly `k + 1` passes, the last one running.
   */
  lemma KFailuresThenSuccess(outcomes: seq<Attempt>, k: nat)
    requires k < |outcomes| && outcomes[k] == RunSucceeded
    requires forall j :: 0 <= j < k ==> outcomes[j] == SetupFailed(Dial)
    ensures HostLoop(outcomes, true) == Stopped(k + 1, RunSucceeded)
  {
    StopsAtFirstNonRetry(outcomes, true, k);
  }

  /** How one host's executor ends. */
  datatype HostReport =
    | TemplateFailed                 // pongo2 could not parse or execute the command
    | HostParseFailed                // `url.Parse` failed on the host string
    | Executed(cmd: string, target: Target, end: LoopEnd)

  /**
   * `runCmdOnHost`: the rendered command (`None` when templating failed),
   * the URL parse, the defaults and the loop's outcomes decide the report.
   * A template or parse failure ends the host before any connection.
   */
  method RunCmdOnHost(host: string, rendered: Option<string>, parsed: ParsedUrl,
                      defaultUser: string, defaultPass: string, reconnect: bool,
                      outcomes: seq<Attempt>) returns (report: HostReport)
    ensures rendered.None? <==> report.TemplateFailed?
    ensures rendered.Some? ==> (parsed.ParseFailed? <==> report.HostParseFailed?)
    ensures report.Executed? ==>
      report.cmd == rendered.value &&
      Some(report.target) == ResolveTarget(host, parsed, defaultUser, defaultPass) &&
      report.end == HostLoop(outcomes, reconnect)
  {
    if rendered.None? {
      return TemplateFailed;
    }
    var target := ResolveTarget(host, parsed, defaultUser, defaultPass);
    if target.None? {
      return HostParseFailed;
    }
    var end := RetryLoop(outcomes, reconnect);
    return Executed(rendered.value, target.value, end);
  }
}
