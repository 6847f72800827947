/**
 * The tailing variant's runner (octobus.go:105-112, 125-150, 167-184): the
 * `tail -f` command, and the per-host loop of `runMulti`, which calls
 * `run` until it returns no error.
 *
 * `run` returns an error only when `Dial` or `NewSession` fails: the result
 * of `session.Run` is discarded (octobus.go:148), so a remote command that
 * fails, or a connection that drops while it runs, ends the host's loop as
 * a success does. Each call of `run` is given as the outcome it met.
 */
module TailRunner {

  /** `TailForever`'s command: `tail -f <file>`, prefixed by `sudo ` when asked. */
  function TailCommand(file: string, useSudo: bool): (cmd: string)
    ensures ("sudo " <= cmd) <==> useSudo
    ensures |cmd| >= |file| && cmd[|cmd| - |file|..] == file
    ensures cmd[..|cmd| - |file|] == if useSudo then "sudo tail -f " else "tail -f "
  {
    var cmd := "tail -f " + file;
    assert cmd[0] != "sudo "[0];
    if useSudo then "sudo " + cmd else cmd
  }

  /** The command determines the file and the sudo flag. */
  lemma TailCommandInjective(file1: string, sudo1: bool, file2: string, sudo2: bool)
    requires TailCommand(file1, sudo1) == TailCommand(file2, sudo2)
    ensures file1 == file2 && sudo1 == sudo2
  {
    var cmd := TailCommand(file1, sudo1);
    assert sudo1 == sudo2;
    var prefix := if sudo1 then "sudo tail -f " else "tail -f ";
    assert |file1| == |cmd| - |prefix| == |file2|;
  }

  /** What `session.Run` did; `run` ignores it. */
  datatype RunOutcome = Exited(status: int) | RunTransportError

  /** What one call of `run` met. */
  datatype Pass = DialFailed | NewSessionFailed | SessionRan(outcome: RunOutcome)

  /** `run` returns a non-nil error: exactly when no session was opened. */
  predicate RunFails(p: Pass)
    ensures RunFails(p) <==> !p.SessionRan?
  {
    p.DialFailed? || p.NewSessionFailed?
  }

  /**
   * How a host's loop ends: after a call of `run` that returned nil, or
   * still retrying when the given outcomes run out. `StillRetrying` only
   * says the outcomes ran out, which can happen before the first call: with
   * no outcomes it is `StillRetrying(0)`.
   */
  datatype TailEnd = Finished(attempts: nat) | StillRetrying(attempts: nat)

  /** The loop as a function: it finishes at the first call that returns nil. */
  function TailLoop(passes: seq<Pass>): (e: TailEnd)
    ensures e.Finished? ==>
      1 <= e.attempts <= |passes| && !RunFails(passes[e.attempts - 1]) &&
      forall j :: 0 <= j < e.attempts - 1 ==> RunFails(passes[j])
    ensures e.StillRetrying? ==>
      e.attempts == |passes| && forall j :: 0 <= j < |passes| ==> RunFails(passes[j])
  {
    if |passes| == 0 then StillRetrying(0)
    else if !RunFails(passes[0]) then Finished(1)
    else
      match TailLoop(passes[1..])
      case Finished(n) => Finished(n + 1)
      case StillRetrying(n) => StillRetrying(n + 1)
  }

  /** The number of calls is the index of the first that returns nil, plus one. */
  lemma {:induction false} FinishesAtFirstSession(passes: seq<Pass>, k: nat)
    requires k < |passes| && !RunFails(passes[k])
    requires forall j :: 0 <= j < k ==> RunFails(passes[j])
    ensures TailLoop(passes) == Finished(k + 1)
  {
    if k > 0 {
      FinishesAtFirstSession(passes[1..], k - 1);
    }
  }

  lemma {:induction false} FailsThroughout(passes: seq<Pass>)
    requires forall j :: 0 <= j < |passes| ==> RunFails(passes[j])
    ensures TailLoop(passes) == StillRetrying(|passes|)
  {
    if |passes| > 0 {
      FailsThroughout(passes[1..]);
    }
  }

  /** A session that opened ends the loop, whatever the remote command did. */
  lemma RemoteFailureNotRetried(passes: seq<Pass>, outcome: RunOutcome)
    requires |passes| >= 1 && passes[0] == SessionRan(outcome)
    ensures TailLoop(passes) == Finished(1)
  {
  }

  /**
   * `runMulti`, with the hosts' loops run one after another instead of in
   * goroutines: every host gets its own loop over its own outcomes, and the
   * shared `err` ends as the last value `run` stored in it, which is nil
   * when every host finished.
   */
  method RunMulti(perHost: seq<seq<Pass>>) returns (ends: seq<TailEnd>, errSet: bool)
    ensures |ends| == |perHost|
    ensures forall h :: 0 <= h < |perHost| ==> ends[h] == TailLoop(perHost[h])
    ensures (forall h :: 0 <= h < |ends| ==> ends[h].Finished?) ==> !errSet
  {
    ends := [];
    errSet := false;
    var h := 0;
    while h < |perHost|
      invariant 0 <= h <= |perHost| && |ends| == h
      invariant forall k :: 0 <= k < h ==> ends[k] == TailLoop(perHost[k])
      invariant (forall k :: 0 <= k < h ==> ends[k].Finished?) ==> !errSet
    {
      var passes := perHost[h];
      var end := StillRetrying(|passes|);
      var i := 0;
      while i < |passes|
        invariant 0 <= i <= |passes|
        invariant forall j :: 0 <= j < i ==> RunFails(passes[j])
        invariant end == StillRetrying(|passes|)
      {
        errSet := RunFails(passes[i]);
        if !errSet {
          FinishesAtFirstSession(passes, i);
          end := Finished(i + 1);
          break;
        }
        i := i + 1;
      }
      if end.StillRetrying? {
        FailsThroughout(passes);
      }
      ends := ends + [end];
      h := h + 1;
    }
  }

  /**
   * `TailForever`: builds the command and runs it on every host; the
   * command reaches the hosts' sessions only, which are not modelled.
   */
  method TailForever(file: string, useSudo: bool, perHost: seq<seq<Pass>>)
    returns (cmd: string, ends: seq<TailEnd>, errSet: bool)
    ensures cmd == TailCommand(file, useSudo)
    ensures |ends| == |perHost| && forall h :: 0 <= h < |perHost| ==> ends[h] == TailLoop(perHost[h])
    ensures (forall h :: 0 <= h < |ends| ==> ends[h].Finished?) ==> !errSet
  {
    cmd := TailCommand(file, useSudo);
    ends, errSet := RunMulti(perHost);
  }
}
