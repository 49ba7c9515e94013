/** How one RunVU call is accounted for: executeIteration and recordIterationResultFast. */
module Iterations {
  /** What the engine sees when RunVU is over; `failed` says that it returned an error. */
  datatype Ending = Panicked | Returned(failed: bool, runCancelled: bool, deadlineExceeded: bool)

  datatype Verdict = Completed | Interrupted | TimedOut | ApplicationError | Panic

  /** The engine's documented classification of an iteration. */
  function Classify(e: Ending): Verdict {
    match e
    case Panicked => Panic
    case Returned(failed, runCancelled, deadlineExceeded) =>
      if runCancelled then (if failed then Interrupted else Completed)
      else if deadlineExceeded then TimedOut
      else if failed then ApplicationError
      else Completed
  }

  function Count(v: Verdict, es: seq<Ending>): nat {
    if es == [] then 0 else Count(v, es[..|es| - 1]) + (if Classify(es[|es| - 1]) == v then 1 else 0)
  }

  /** What iterations_total and iterations_failed must show for these endings. */
  function Total(es: seq<Ending>): int {
    |es| - Count(Interrupted, es)
  }

  function Failed(es: seq<Ending>): int {
    Count(TimedOut, es) + Count(Panic, es) + Count(ApplicationError, es)
  }

  /** The four counters, tied to the endings they have recorded. */
  class IterationMetrics {
    var total: int
    var failed: int
    var timeout: int
    var panics: int
    ghost var endings: seq<Ending>

    ghost predicate Valid()
      reads this
    {
      && total == Total(endings)
      && timeout == Count(TimedOut, endings)
      && panics == Count(Panic, endings)
      && failed == Failed(endings)
    }

    constructor ()
      ensures Valid() && endings == []
      ensures total == failed == timeout == panics == 0
    {
      total, failed, timeout, panics := 0, 0, 0, 0;
      endings := [];
    }

    /** A panic is a failed iteration, whatever the contexts say. */
    method ExecuteIteration(e: Ending)
      requires Valid()
      modifies this
      ensures Valid() && endings == old(endings) + [e]
      ensures panics == old(panics) + (if e.Panicked? then 1 else 0)
      ensures e.Panicked? ==> failed == old(failed) + 1 && total == old(total) + 1 && timeout == old(timeout)
    {
      endings := endings + [e];
      assert endings[..|endings| - 1] == old(endings);
      if e.Panicked? {
        panics := panics + 1;
        failed := failed + 1;
        total := total + 1;
      } else {
        RecordIterationResult(e);
      }
    }

    method RecordIterationResult(e: Ending)
      requires e.Returned?
      modifies this`total, this`failed, this`timeout
      ensures e.runCancelled ==> timeout == old(timeout) && failed == old(failed)
      ensures e.runCancelled ==> total == old(total) + (if e.failed then 0 else 1)
      ensures !e.runCancelled ==> total == old(total) + 1
      ensures !e.runCancelled ==> timeout == old(timeout) + (if e.deadlineExceeded then 1 else 0)
      ensures !e.runCancelled ==> failed == old(failed) + (if e.deadlineExceeded || e.failed then 1 else 0)
    {
      if e.runCancelled {
        if !e.failed {
          total := total + 1;
        }
        return;
      }
      if e.deadlineExceeded {
        timeout := timeout + 1;
        failed := failed + 1;
        total := total + 1;
      } else if e.failed {
        failed := failed + 1;
        total := total + 1;
      } else {
        total := total + 1;
      }
    }
  }

  /** Every iteration is counted as exactly one verdict, so the failures never exceed the total. */
  lemma {:induction false} VerdictsPartition(es: seq<Ending>)
    ensures Total(es) == Failed(es) + Count(Completed, es)
    ensures Count(Completed, es) + Count(Interrupted, es) + Count(TimedOut, es) + Count(ApplicationError, es) + Count(Panic, es) == |es|
  {
    if es != [] {
      VerdictsPartition(es[..|es| - 1]);
    }
  }

  // ---------- What the counters say about the endings ----------

  /** How many endings are of some kind. */
  function Number(kind: Ending -> bool, es: seq<Ending>): nat {
    if es == [] then 0 else Number(kind, es[..|es| - 1]) + (if kind(es[|es| - 1]) then 1 else 0)
  }

  predicate IsPanic(e: Ending) {
    e == Panicked
  }

  predicate RanIntoDeadline(e: Ending) {
    e.Returned? && !e.runCancelled && e.deadlineExceeded
  }

  /** Returned an error although the run went on and there was time left. */
  predicate FailedByItself(e: Ending) {
    e == Returned(true, false, false)
  }

  predicate CutOff(e: Ending) {
    e.Returned? && e.runCancelled && e.failed
  }

  /**
   Timeouts are the endings past their deadline in a run that was not cancelled; failures are those, the panics and the
   errors of a run and an iteration still in time; and only the errors of a cancelled run are not counted at all.
   */
  lemma {:induction false} CountersFromFlags(es: seq<Ending>)
    ensures Count(TimedOut, es) == Number(RanIntoDeadline, es) && Count(Panic, es) == Number(IsPanic, es)
    ensures Failed(es) == Number(RanIntoDeadline, es) + Number(IsPanic, es) + Number(FailedByItself, es)
    ensures Total(es) == |es| - Number(CutOff, es)
  {
    if es != [] {
      CountersFromFlags(es[..|es| - 1]);
    }
  }
}
