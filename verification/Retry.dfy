/** The bounded retry loop around ACME calls. Durations are nanoseconds. */
module Retry {
  import opened Base

  const INTERVAL := 15_000_000_000
  const FAST_FAIL := 1_000_000_000

  /** What the environment does: the outcome and duration of the i-th attempt, and
      whether the context fires during the sleep after it (and after how long). */
  datatype Attempt = Attempt(ok: bool, dur: nat)

  datatype Outcome = Succeeded | ContextDead | TooFast | TooMany | SleepCancelled

  /** The i-th attempt fails slowly and the sleep after it runs to its end. */
  predicate GoesOn(work: nat -> Attempt, fires: nat -> Option<nat>, i: nat) {
    !work(i).ok && work(i).dur >= FAST_FAIL && fires(i).None?
  }

  /** Attempt `k` is made, if the count allows it. */
  ghost predicate Reaches(work: nat -> Attempt, fires: nat -> Option<nat>, k: nat) {
    forall i: nat :: i < k ==> GoesOn(work, fires, i)
  }

  lemma NoLaterSuccess(work: nat -> Attempt, fires: nat -> Option<nat>, a: nat)
    requires Reaches(work, fires, a) && !work(a).ok
    ensures forall k: nat :: k <= a ==> !work(k).ok
    ensures !GoesOn(work, fires, a) ==> forall k: nat :: Reaches(work, fires, k) ==> !work(k).ok
  {
    forall k: nat | k <= a ensures !work(k).ok {
      if k < a {
        assert GoesOn(work, fires, k);
      }
    }
  }

  function LastAttempt(retryCount: int): nat {
    Max(retryCount, 0)
  }

  /** The time the first `n` attempts take. */
  function Spent(work: nat -> Attempt, n: nat): nat {
    if n == 0 then 0 else Spent(work, n - 1) + work(n - 1).dur
  }

  /** Do makes attempts 0, 1, ..., up to and including the first that succeeds, fails
      fast, is the last one allowed, or whose sleep is cut short; the result says
      which. Success is reported exactly when an allowed attempt that is reached
      succeeds, and the time spent is exactly that of the attempts and the sleeps between. */
  method Do(dead: bool, retryCount: int, work: nat -> Attempt, fires: nat -> Option<nat>, longest: nat)
    returns (r: Outcome, attempts: nat, elapsed: nat)
    requires forall i: nat :: work(i).dur <= longest
    requires forall i: nat :: fires(i).Some? ==> fires(i).value <= INTERVAL
    ensures dead <==> r.ContextDead?
    ensures dead <==> attempts == 0
    ensures attempts <= LastAttempt(retryCount) + 1
    ensures forall i: nat :: i + 1 < attempts ==> GoesOn(work, fires, i)
    ensures r.Succeeded? <==> attempts > 0 && work(attempts - 1).ok
    ensures r.TooFast? <==> attempts > 0 && !work(attempts - 1).ok && work(attempts - 1).dur < 1_000_000_000
    ensures r.TooMany? ==> attempts == LastAttempt(retryCount) + 1
    ensures r.SleepCancelled? ==> 0 < attempts <= LastAttempt(retryCount) && fires(attempts - 1).Some?
    ensures r.Succeeded? <==>
              !dead && exists k: nat :: k <= LastAttempt(retryCount) && work(k).ok && Reaches(work, fires, k)
    ensures elapsed == Spent(work, attempts) + (if attempts == 0 then 0 else (attempts - 1) * INTERVAL)
                       + if r.SleepCancelled? then fires(attempts - 1).value else 0
    ensures elapsed <= (LastAttempt(retryCount) + 1) * longest + LastAttempt(retryCount) * INTERVAL
  {
    attempts, elapsed := 0, 0;
    if dead {
      return ContextDead, 0, 0;
    }
    var last := LastAttempt(retryCount);
    while true
      invariant attempts <= last
      invariant Reaches(work, fires, attempts)
      invariant elapsed == Spent(work, attempts) + attempts * INTERVAL
      invariant elapsed <= attempts * longest + attempts * INTERVAL
      decreases last - attempts
    {
      var attempt := attempts;
      elapsed := elapsed + work(attempt).dur;
      attempts := attempts + 1;
      TimeGrows(attempt, last, longest, INTERVAL);
      if work(attempt).ok {
        return Succeeded, attempts, elapsed;
      }
      if work(attempt).dur < FAST_FAIL {
        NoLaterSuccess(work, fires, attempt);
        return TooFast, attempts, elapsed;
      }
      if attempt >= retryCount {
        NoLaterSuccess(work, fires, attempt);
        return TooMany, attempts, elapsed;
      }
      match fires(attempt) {
        case None => elapsed := elapsed + INTERVAL;
        case Some(d) =>
          NoLaterSuccess(work, fires, attempt);
          return SleepCancelled, attempts, elapsed + d;
      }
    }
  }

  lemma TimeGrows(i: nat, last: nat, longest: nat, interval: nat)
    requires i <= last
    ensures (i + 1) * longest == i * longest + longest && (i + 1) * interval == i * interval + interval
    ensures (i + 1) * longest <= (last + 1) * longest
    ensures i * interval <= last * interval
    ensures i < last ==> (i + 1) * interval <= last * interval
  {
    MulMonotone(i + 1, last + 1, longest);
    MulMonotone(i, last, interval);
    if i < last {
      MulMonotone(i + 1, last, interval);
    }
  }

  lemma MulMonotone(a: nat, b: nat, x: nat)
    requires a <= b
    ensures a * x <= b * x
  {
    assert b * x == a * x + (b - a) * x;
  }
}
