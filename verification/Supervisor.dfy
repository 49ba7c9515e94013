/** The supervised PreTest of internal/engine/supervisor.go: retries with wrapping exponential backoff and jitter. */
module Supervisor {
  import opened Arithmetic

  const MILLISECOND: int := 1_000_000
  const BASE_BACKOFF: int := 10 * MILLISECOND
  const MAX_BACKOFF: int := 1000 * MILLISECOND

  function Pow2(n: nat): nat {
    if n == 0 then 1 else 2 * Pow2(n - 1)
  }

  /** baseBackoff * (1 << attempt), then the clamp; both operations in int64. */
  function Delay(attempt: nat): int {
    Clamped(Wrap(BASE_BACKOFF * Wrap(Pow2(attempt))))
  }

  function Clamped(delay: int): int {
    if delay > MAX_BACKOFF || delay <= 0 then MAX_BACKOFF else delay
  }

  lemma {:induction false} Pow2Adds(m: nat, n: nat)
    ensures Pow2(m + n) == Pow2(m) * Pow2(n)
  {
    if m > 0 {
      Pow2Adds(m - 1, n);
      assert m + n - 1 == (m - 1) + n;
      Doubles(Pow2(m - 1), Pow2(n));
    }
  }

  lemma Doubles(a: int, b: int)
    ensures (2 * a) * b == 2 * (a * b)
  {
  }

  lemma {:induction false} Pow2Grows(m: nat, n: nat)
    requires m <= n
    ensures 1 <= Pow2(m) <= Pow2(n)
  {
    if n > 0 {
      if m == n {
        Pow2Grows(n - 1, n - 1);
      } else {
        Pow2Grows(m, n - 1);
      }
    }
  }

  lemma Pow2Of30()
    ensures Pow2(30) == 0x4000_0000 && Pow2(22) == 0x40_0000 && Pow2(7) == 128
  {
    Pow2Adds(11, 11);
    Pow2Adds(22, 8);
    assert Pow2(8) == 256 && Pow2(11) == 2048 && Pow2(7) == 128;
  }

  /** From attempt 23 on the wrapped product is a multiple of 2^30: too big, or not positive. */
  lemma WrappedProductIsMultiple(attempt: nat) returns (m: int)
    requires attempt >= 23
    ensures Wrap(BASE_BACKOFF * Wrap(Pow2(attempt))) == m * 0x4000_0000
  {
    var high := attempt - 23;
    Pow2Of30();
    Pow2Adds(23, high);
    assert Pow2(23) == 2 * Pow2(22);
    var h := Pow2(high);
    var q := WrapIsCongruent(Pow2(attempt));
    var product := BASE_BACKOFF * Wrap(Pow2(attempt));
    var r := WrapIsCongruent(product);
    assert product == BASE_BACKOFF * (0x80_0000 * h - q * TWO_64);
    m := 78125 * (h - q * 0x200_0000_0000) - r * 0x4_0000_0000;
  }

  lemma LateBackoff(attempt: nat)
    requires attempt >= 23
    ensures Delay(attempt) == MAX_BACKOFF
  {
    var m := WrappedProductIsMultiple(attempt);
    if m >= 1 {
      assert m * 0x4000_0000 >= 0x4000_0000;
    }
  }

  lemma SmallUnwrapped(x: int)
    requires 0 <= x < TWO_63
    ensures Wrap(x) == x
  {
  }

  lemma Pow2Bounds(attempt: nat)
    ensures Pow2(attempt) >= 1
    ensures attempt < 23 ==> Pow2(attempt) <= 0x40_0000
    ensures attempt >= 7 ==> Pow2(attempt) >= 128
  {
    Pow2Of30();
    Pow2Grows(0, attempt);
    if attempt < 23 { Pow2Grows(attempt, 22); }
    if attempt >= 7 { Pow2Grows(7, attempt); }
  }

  lemma EarlyBackoff(attempt: nat, p: int)
    requires attempt < 23 && p == Pow2(attempt)
    ensures Delay(attempt) == if BASE_BACKOFF * p <= MAX_BACKOFF then BASE_BACKOFF * p else MAX_BACKOFF
  {
    Pow2Bounds(attempt);
    SmallUnwrapped(p);
    SmallUnwrapped(BASE_BACKOFF * p);
  }

  /** No overflow ever shows: the delay is min(10ms * 2^attempt, 1s) for every attempt. */
  lemma BackoffIsExact(attempt: nat)
    ensures Delay(attempt) == if BASE_BACKOFF * Pow2(attempt) <= MAX_BACKOFF then BASE_BACKOFF * Pow2(attempt) else MAX_BACKOFF
  {
    if attempt >= 23 {
      LateBackoff(attempt);
      Pow2Bounds(attempt);
    } else {
      EarlyBackoff(attempt, Pow2(attempt));
    }
  }

  // ---------- The retry loop ----------

  /** What ends one backoff: the timer, the context or the stop channel. */
  datatype Wake = TimerFired | ContextDone | StopClosed

  /** One attempt's surroundings: whether the hook succeeds, and if not, what follows. */
  datatype Attempt = Attempt(passes: bool, jitter: int, wake: Wake)

  datatype Verdict = Ready | Exhausted | Cancelled

  /** The attempt that decides: the first success, the last allowed failure or the first interrupted backoff. */
  ghost predicate Decides(attempts: seq<Attempt>, maxRetries: nat, k: nat) {
    && k < |attempts| && k <= maxRetries
    && (forall i :: 0 <= i < k ==> !attempts[i].passes && attempts[i].wake == TimerFired)
    && (attempts[k].passes || k == maxRetries || attempts[k].wake != TimerFired)
  }

  class PreTestSupervisor {
    var pretestErrors: int
    var restarts: int

    constructor ()
      ensures pretestErrors == restarts == 0
    {
      pretestErrors, restarts := 0, 0;
    }

    /**
     `attempts` lists what each attempt meets, with the random draw below delay/2 + 1; `sleeps` are the backoffs waited for.  The method
     consumes the attempts up to the deciding one, and the counters tell the verdicts apart.
     */
    method RunSupervisedPreTest(maxPreTestRetries: int, attempts: seq<Attempt>) returns (v: Verdict, sleeps: seq<int>, ghost k: nat)
      requires |attempts| > (if maxPreTestRetries < 0 then 0 else maxPreTestRetries)
      requires forall i :: 0 <= i < |attempts| ==> 0 <= attempts[i].jitter < Delay(i) / 2 + 1
      modifies this
      ensures Decides(attempts, if maxPreTestRetries < 0 then 0 else maxPreTestRetries, k)
      ensures v == Ready <==> attempts[k].passes
      ensures v == Exhausted <==> !attempts[k].passes && k == (if maxPreTestRetries < 0 then 0 else maxPreTestRetries)
      ensures pretestErrors - old(pretestErrors) == k + (if v == Ready then 0 else 1)
      ensures restarts - old(restarts) == k + (if v == Cancelled then 1 else 0)
      ensures v == Cancelled <==> !attempts[k].passes && k < maxPreTestRetries && attempts[k].wake != TimerFired
      ensures v == Exhausted <==> pretestErrors - old(pretestErrors) == restarts - old(restarts) + 1
      ensures |sleeps| == restarts - old(restarts)
      ensures forall i :: 0 <= i < |sleeps| ==> sleeps[i] == Delay(i) + attempts[i].jitter
      ensures forall i :: 0 <= i < |sleeps| ==> Delay(i) <= sleeps[i] && 2 * sleeps[i] <= 3 * Delay(i)
    {
      var maxRetries: int := maxPreTestRetries;
      if maxRetries < 0 {
        maxRetries := 0;
      }
      sleeps := [];
      var attempt := 0;
      while true
        invariant 0 <= attempt <= maxRetries
        invariant forall i :: 0 <= i < attempt ==> !attempts[i].passes && attempts[i].wake == TimerFired
        invariant pretestErrors == old(pretestErrors) + attempt && restarts == old(restarts) + attempt && |sleeps| == attempt
        invariant forall i :: 0 <= i < |sleeps| ==> sleeps[i] == Delay(i) + attempts[i].jitter
        invariant forall i :: 0 <= i < |sleeps| ==> Delay(i) <= sleeps[i] && 2 * sleeps[i] <= 3 * Delay(i)
        decreases maxRetries - attempt
      {
        k := attempt;
        if attempts[attempt].passes {
          return Ready, sleeps, k;
        }
        pretestErrors := pretestErrors + 1;
        if attempt >= maxRetries {
          return Exhausted, sleeps, k;
        }
        restarts := restarts + 1;
        sleeps := sleeps + [Delay(attempt) + attempts[attempt].jitter];
        if attempts[attempt].wake != TimerFired {
          return Cancelled, sleeps, k;
        }
        attempt := attempt + 1;
      }
    }
  }
}
