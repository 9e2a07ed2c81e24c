/**
  One attempt at running the CLI (`executeProcess`). The child process and the
  timer are replaced by the trace of events the attempt observes, in the order
  their callbacks run. The attempt's promise settles once: the first of a
  close, a spawn error or the timer firing decides it, and everything later is
  ignored. A timer that has not been cleared when the trace ends fires then.
 */
module CliProcess {
  import opened Wrappers
  import opened Strings

  /** `ProcessResult`: what a clean exit resolves with. */
  datatype ProcessResult = ProcessResult(stdout: string, stderr: string, exitCode: int)

  /** The callbacks an attempt can observe. `Close(None)` is a close with a null code (killed by a signal). */
  datatype ProcessEvent =
    | StdoutData(chunk: string)
    | StderrData(chunk: string)
    | Close(code: Option<int>)
    | SpawnError(message: string)
    | TimerFired

  /** Events whose callback settles the promise when nothing has settled it yet. */
  predicate Settles(e: ProcessEvent) {
    e.Close? || e.SpawnError? || e.TimerFired?
  }

  /** The index of the first settling event of a trace. */
  function FirstSettling(es: seq<ProcessEvent>): (r: Option<nat>)
    ensures r.Some? ==> r.value < |es| && Settles(es[r.value])
    ensures r.Some? ==> forall j :: 0 <= j < r.value ==> !Settles(es[j])
    ensures r.None? ==> forall j :: 0 <= j < |es| ==> !Settles(es[j])
  {
    if es == [] then None
    else
      match FirstSettling(es[..|es| - 1])
      case Some(k) => Some(k)
      case None => if Settles(es[|es| - 1]) then Some(|es| - 1) else None
  }

  /** The in-order concatenation of the stdout chunks of a trace. */
  function StdoutOf(es: seq<ProcessEvent>): string {
    if es == [] then ""
    else StdoutOf(es[..|es| - 1]) + (if es[|es| - 1].StdoutData? then es[|es| - 1].chunk else "")
  }

  /** The in-order concatenation of the stderr chunks of a trace. */
  function StderrOf(es: seq<ProcessEvent>): string {
    if es == [] then ""
    else StderrOf(es[..|es| - 1]) + (if es[|es| - 1].StderrData? then es[|es| - 1].chunk else "")
  }

  function TimeoutMessage(timeout: int): string {
    "Claude CLI timeout after " + IntToString(timeout) + "ms"
  }

  /** A null code prints as "null" in the template literal. */
  function ExitMessage(code: Option<int>, stderr: string): string {
    "Claude CLI failed with code " + (if code.Some? then IntToString(code.value) else "null") + ": " + stderr
  }

  function SpawnMessage(message: string): string {
    "Failed to spawn Claude CLI: " + message
  }

  /** How the settling event `e` settles the promise, given the events `before` it. */
  function SettleBy(e: ProcessEvent, before: seq<ProcessEvent>, timeout: int): Result<ProcessResult, string>
    requires Settles(e)
  {
    match e
    case Close(code) =>
      if code == Some(0) then Success(ProcessResult(StdoutOf(before), StderrOf(before), 0))
      else Failure(ExitMessage(code, StderrOf(before)))
    case SpawnError(m) => Failure(SpawnMessage(m))
    case TimerFired => Failure(TimeoutMessage(timeout))
  }

  /** What the attempt's promise settles with, stated by its first settling event. */
  function Settlement(es: seq<ProcessEvent>, timeout: int): Result<ProcessResult, string> {
    match FirstSettling(es)
    case Some(k) => SettleBy(es[k], es[..k], timeout)
    case None => Failure(TimeoutMessage(timeout))
  }

  /**
    `executeProcess`: runs the event callbacks over the trace, updating
    `stdout`, `stderr` and `timedOut` as the source's closures do, and settling
    the promise at most once.
   */
  method ExecuteProcess(events: seq<ProcessEvent>, timeout: int) returns (r: Result<ProcessResult, string>)
    ensures r == Settlement(events, timeout)
  {
    var stdout, stderr := "", "";
    var timedOut, timerCleared := false, false;
    var settled: Option<Result<ProcessResult, string>> := None;
    for i := 0 to |events|
      invariant stdout == StdoutOf(events[..i]) && stderr == StderrOf(events[..i])
      invariant settled.None? <==> FirstSettling(events[..i]).None?
      invariant settled.Some? ==>
        var k := FirstSettling(events[..i]).value;
        settled.value == SettleBy(events[k], events[..k], timeout)
      invariant settled.None? ==> !timedOut && !timerCleared
    {
      assert events[..i + 1][..i] == events[..i];
      match events[i]
      case StdoutData(chunk) =>
        stdout := stdout + chunk;
      case StderrData(chunk) =>
        stderr := stderr + chunk;
      case TimerFired =>
        // a cleared timer never fires, and a timer fires at most once
        if !timerCleared && !timedOut {
          timedOut := true;
          if settled.None? {
            settled := Some(Failure(TimeoutMessage(timeout)));
          }
        }
      case Close(code) =>
        timerCleared := true;
        if !timedOut && settled.None? {
          if code != Some(0) {
            settled := Some(Failure(ExitMessage(code, stderr)));
          } else {
            settled := Some(Success(ProcessResult(stdout, stderr, 0)));
          }
        }
      case SpawnError(message) =>
        timerCleared := true;
        if settled.None? {
          settled := Some(Failure(SpawnMessage(message)));
        }
    }
    assert events[..|events|] == events;
    if settled.None? {
      // the timer is still armed when the trace ends, so it fires
      timedOut := true;
      settled := Some(Failure(TimeoutMessage(timeout)));
    }
    r := settled.value;
  }

  /** Events after the first settling one change nothing: the promise settles once and the first settling event wins. */
  lemma FirstSettlementWins(es: seq<ProcessEvent>, more: seq<ProcessEvent>, timeout: int)
    requires FirstSettling(es).Some?
    ensures FirstSettling(es + more) == FirstSettling(es)
    ensures Settlement(es + more, timeout) == Settlement(es, timeout)
  {
    var k := FirstSettling(es).value;
    var all := es + more;
    assert all[k] == es[k];
    assert forall j :: 0 <= j < k ==> all[j] == es[j];
    var k' := FirstSettling(all).value;
    assert k' == k;
    assert all[..k] == es[..k];
  }

  /** A close that arrives after the timeout fired is ignored: the attempt still fails with the timeout. */
  lemma LateCloseIgnored(es: seq<ProcessEvent>, code: Option<int>, timeout: int)
    requires forall j :: 0 <= j < |es| ==> !Settles(es[j])
    ensures Settlement(es + [TimerFired, Close(code)], timeout) == Failure(TimeoutMessage(timeout))
  {
    var pre := es + [TimerFired];
    assert FirstSettling(pre[..|pre| - 1]).None? by {
      assert pre[..|pre| - 1] == es;
    }
    FirstSettlementWins(pre, [Close(code)], timeout);
    assert pre + [Close(code)] == es + [TimerFired, Close(code)];
  }

  /** An attempt resolves exactly when its first settling event is a close with code 0, and it then carries the output seen before that close. */
  lemma ResolvesOnlyOnCleanClose(es: seq<ProcessEvent>, timeout: int)
    ensures Settlement(es, timeout).Success? <==>
      FirstSettling(es).Some? && es[FirstSettling(es).value] == Close(Some(0))
    ensures Settlement(es, timeout).Success? ==>
      var k := FirstSettling(es).value;
      Settlement(es, timeout).value == ProcessResult(StdoutOf(es[..k]), StderrOf(es[..k]), 0)
  {
  }

  /** Output chunks accumulate in order: stdout of a trace is the stdout of its parts, concatenated. */
  lemma {:induction false} StdoutOfAppend(a: seq<ProcessEvent>, b: seq<ProcessEvent>)
    ensures StdoutOf(a + b) == StdoutOf(a) + StdoutOf(b)
    decreases |b|
  {
    if b == [] {
      assert a + b == a;
    } else {
      var b', e := b[..|b| - 1], b[|b| - 1];
      var tail := if e.StdoutData? then e.chunk else "";
      assert StdoutOf(b) == StdoutOf(b') + tail;
      assert StdoutOf(a + b) == StdoutOf(a + b') + tail by {
        assert (a + b)[..|a + b| - 1] == a + b';
        assert (a + b)[|a + b| - 1] == e;
      }
      StdoutOfAppend(a, b');
      assert StdoutOf(a) + StdoutOf(b') + tail == StdoutOf(a) + (StdoutOf(b') + tail);
    }
  }

  /** The timeout rejection always mentions "timeout". */
  lemma TimeoutMessageMentionsTimeout(timeout: int)
    ensures Contains(TimeoutMessage(timeout), "timeout")
  {
    var m := TimeoutMessage(timeout);
    assert m[11..18] == "timeout";
    assert OccursAt(m, "timeout", 11);
  }
}
