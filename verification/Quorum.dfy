/**
 The startup quorum gate of internal/engine/quorum.go: two counters, two
 close-once channels and the stored abort error.  `Gate` is the value the
 atomic operations act on; `Lifecycle` interleaves them one at a time, and the
 class below performs them call by call.
 */
module Quorum {
  import opened Wrappers

  /** What made triggerAbort run: a worker's PreTest error or the grace timer. */
  datatype Cause = WorkerFailed | GraceExpired

  datatype QuorumError = QuorumError(ready: int, target: int, required: int, cause: Cause)

  /** State of a sync.Once: later callers of Do wait until it is Finished. */
  datatype Once = Fresh | Entered | Finished

  datatype Gate = Gate(target: int, required: int, ready: int, failed: int, readyClosed: bool,
                       abortOnce: Once, abortErr: Option<QuorumError>, abortClosed: bool)

  function Ceil(x: real): int {
    -((-x).Floor)
  }

  function Target(target: int): int {
    if target <= 0 then 1 else target
  }

  lemma CeilIsCeiling(target: int, ratio: real)
    ensures var x := Target(target) as real * ratio;
            && Ceil(x) as real - 1.0 < x <= Ceil(x) as real
            && (ratio <= 0.0 ==> x <= 0.0) && (ratio > 0.0 ==> x > 0.0)
            && (ratio <= 1.0 ==> x <= Target(target) as real) && (ratio >= 1.0 ==> x >= Target(target) as real)
  {
    var t, x := Target(target) as real, Target(target) as real * ratio;
    assert (-x).Floor as real <= -x < (-x).Floor as real + 1.0;
    assert t * (1.0 - ratio) == t - x;
  }

  function Required(target: int, ratio: real): (required: int)
    ensures 1 <= required <= Target(target)
    ensures 0.0 < ratio <= 1.0 ==> (required - 1) as real < Target(target) as real * ratio <= required as real
    ensures ratio <= 0.0 ==> required == 1
    ensures ratio >= 1.0 ==> required == Target(target)
  {
    CeilIsCeiling(target, ratio);
    var required := Ceil(Target(target) as real * ratio);
    var atLeastOne := if required <= 0 then 1 else required;
    if atLeastOne > Target(target) then Target(target) else atLeastOne
  }

  function NewGate(target: int, ratio: real): Gate {
    Gate(Target(target), Required(target, ratio), 0, 0, false, Fresh, None, false)
  }

  /** For every ratio the configuration accepts, `required` is the exact threshold of the ratio. */
  lemma RequiredIsRatio(target: int, ratio: real, ready: int)
    requires 0.0 < ratio <= 1.0
    ensures ready >= Required(target, ratio) <==> ready as real >= Target(target) as real * ratio
  {
    CeilIsCeiling(target, ratio);
  }

  // The atomic steps of RecordReady, RecordFailed and triggerAbort.

  function AddReady(g: Gate): Gate {
    g.(ready := g.ready + 1)
  }

  function OpenIfReached(g: Gate, currentReady: int): Gate {
    if currentReady >= g.required then g.(readyClosed := true) else g
  }

  function AddFailed(g: Gate): Gate {
    g.(failed := g.failed + 1)
  }

  predicate TooManyFailures(g: Gate, currentFailed: int) {
    currentFailed > g.target - g.required
  }

  function AbortErrorNow(g: Gate, cause: Cause): QuorumError {
    QuorumError(g.ready, g.target, g.required, cause)
  }

  function EnterOnce(g: Gate): Gate {
    g.(abortOnce := Entered)
  }

  function PublishError(g: Gate, e: QuorumError): Gate {
    g.(abortErr := Some(e))
  }

  function CloseAbort(g: Gate): Gate {
    g.(abortClosed := true, abortOnce := Finished)
  }

  /** triggerAbort without interruption. */
  function Aborted(g: Gate, cause: Cause): Gate {
    if g.abortOnce == Fresh then CloseAbort(PublishError(EnterOnce(g), AbortErrorNow(g, cause))) else g
  }

  /** The events the orchestrator's select in AwaitQuorum may see first. */
  datatype Event = ReadySignal | AbortSignal | TimerSignal | ContextDone

  datatype Verdict = Released | Refused(error: Option<QuorumError>) | Cancelled

  /** One wake-up of the select as a whole: the gate and the verdict it leaves. */
  function Awaited(g: Gate, event: Event): (Gate, Verdict) {
    match event
    case ReadySignal => (g, Released)
    case AbortSignal => (g, Refused(g.abortErr))
    case TimerSignal =>
      if g.ready >= g.required then (g, Released) else (Aborted(g, GraceExpired), Refused(Aborted(g, GraceExpired).abortErr))
    case ContextDone => (g, Cancelled)
  }

  class StartupQuorumGate {
    const target: int
    const required: int
    const gracePeriod: int
    var readyCount: int
    var failedCount: int
    var readyClosed: bool
    var abortClosed: bool
    var abortOnce: Once
    var abortErr: Option<QuorumError>

    function State(): Gate
      reads this
    {
      Gate(target, required, readyCount, failedCount, readyClosed, abortOnce, abortErr, abortClosed)
    }

    /** Between calls: each channel is closed exactly when its counter says so, or the grace timer fired. */
    ghost predicate Valid()
      reads this
    {
      && 1 <= required <= target
      && (readyClosed <==> readyCount >= required)
      && (abortClosed <==> abortErr.Some?)
      && abortOnce == (if abortClosed then Finished else Fresh)
      && (failedCount > target - required ==> abortClosed)
      && (abortClosed && failedCount <= target - required ==> abortErr.value.cause == GraceExpired)
    }

    constructor (target: int, ratio: real, gracePeriod: int)
      ensures Valid() && State() == NewGate(target, ratio)
      ensures this.gracePeriod == if gracePeriod <= 0 then 10_000_000_000 else gracePeriod
    {
      this.target := Target(target);
      this.required := Required(target, ratio);
      this.gracePeriod := if gracePeriod <= 0 then 10_000_000_000 else gracePeriod;
      readyCount, failedCount := 0, 0;
      readyClosed, abortClosed := false, false;
      abortOnce, abortErr := Fresh, None;
    }

    method RecordReady()
      requires Valid()
      modifies this
      ensures Valid() && State() == OpenIfReached(AddReady(old(State())), old(readyCount) + 1)
      ensures abortClosed == old(abortClosed) && failedCount == old(failedCount)
    {
      readyCount := readyCount + 1;
      if readyCount >= required {
        if !readyClosed {
          readyClosed := true;
        }
      }
    }

    method RecordFailed()
      requires Valid()
      modifies this
      ensures Valid() && readyClosed == old(readyClosed) && readyCount == old(readyCount)
      ensures failedCount == old(failedCount) + 1
      ensures abortClosed <==> old(abortClosed) || failedCount > target - required
      ensures old(abortErr).Some? ==> abortErr == old(abortErr)
      ensures !old(abortClosed) && abortClosed ==> abortErr == Some(QuorumError(readyCount, target, required, WorkerFailed))
    {
      failedCount := failedCount + 1;
      if failedCount > target - required {
        TriggerAbort(WorkerFailed);
      }
    }

    method TriggerAbort(cause: Cause)
      requires abortOnce == (if abortClosed then Finished else Fresh)
      modifies this
      ensures State() == Aborted(old(State()), cause)
    {
      if abortOnce == Fresh {
        abortOnce := Entered;
        var qErr := QuorumError(readyCount, target, required, cause);
        abortErr := Some(qErr);
        abortClosed := true;
        abortOnce := Finished;
      }
    }

    /** One wake-up of the orchestrator's select; `event` is the case the runtime picked among the ready ones. */
    method AwaitQuorum(event: Event) returns (v: Verdict)
      requires Valid()
      requires event == ReadySignal ==> readyClosed
      requires event == AbortSignal ==> abortClosed
      modifies this
      ensures Valid() && readyCount == old(readyCount) && failedCount == old(failedCount)
      ensures v == Released <==> event == ReadySignal || (event == TimerSignal && readyCount >= required)
      ensures v.Refused? <==> event == AbortSignal || (event == TimerSignal && readyCount < required)
      ensures v == Cancelled <==> event == ContextDone
      ensures v == Released ==> readyCount >= required
      ensures v.Refused? ==> abortClosed && abortErr.Some? && v.error == abortErr
      ensures abortClosed <==> old(abortClosed) || (event == TimerSignal && readyCount < required)
      ensures abortErr == if abortClosed && !old(abortClosed) then Some(QuorumError(readyCount, target, required, GraceExpired)) else old(abortErr)
      ensures (State(), v) == Awaited(old(State()), event)
    {
      match event
      case ReadySignal => v := Released;
      case AbortSignal => v := Refused(abortErr);
      case TimerSignal =>
        if readyCount >= required {
          v := Released;
        } else {
          TriggerAbort(GraceExpired);
          v := Refused(abortErr);
        }
      case ContextDone => v := Cancelled;
    }
  }
}
