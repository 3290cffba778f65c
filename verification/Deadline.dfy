/** The renewer's timing: when each certificate is replaced, relative to the deadline
    requested from ACME. */
module Deadline {
  import opened Base
  import opened EntryModel
  import Retry

  /** `renewLeft` is RenewTimeLeftDuration; `roundMax` bounds one round, from the
      timer's firing to the end of renew (RenewRound says what it may be); `failMax`
      bounds consecutive failed rounds. */
  datatype Timing = Timing(lifetime: int, renewLeft: nat, roundMax: nat, failMax: nat)

  /** One round of the renewer's loop. `vb` is the ValidBefore in force, `check` the
      moment it is compared with the clock, `order` the moment the new ValidBefore is
      computed (used only if the round renews). */
  datatype Round = Round(vb: int, begin: int, check: int, order: int, stop: int, renewed: bool)

  predicate Expired(r: Round) {
    r.vb <= r.check
  }

  predicate Failed(r: Round) {
    Expired(r) && !r.renewed
  }

  function NewValidBefore(c: Timing, r: Round): int {
    TruncateHour(r.order) + c.lifetime
  }

  /** renew orders only when the check finds the certificate expired, and a round takes
      at most `roundMax`. */
  predicate RoundOk(c: Timing, r: Round) {
    && r.begin <= r.check <= r.order <= r.stop <= r.begin + c.roundMax
    && (r.renewed ==> Expired(r))
  }

  /** The next round starts a quarter of the renewal window later, with the ValidBefore
      the previous one left behind. */
  predicate Follows(c: Timing, r: Round, s: Round) {
    && s.begin == r.stop + c.renewLeft / 4
    && s.vb == if r.renewed then NewValidBefore(c, r) else r.vb
  }

  ghost predicate Timeline(c: Timing, rounds: seq<Round>) {
    && (forall i :: 0 <= i < |rounds| ==> RoundOk(c, rounds[i]))
    && (forall i :: 0 <= i < |rounds| - 1 ==> Follows(c, rounds[i], rounds[i + 1]))
    && (forall i: nat, j: nat :: j == i + c.failMax && j < |rounds| ==> NotAllFail(rounds, i, j))
  }

  ghost predicate NotAllFail(rounds: seq<Round>, first: nat, last: nat)
    requires last < |rounds|
  {
    exists m :: first <= m <= last && !Failed(rounds[m])
  }

  /** The time `t` rounds and the pauses before them can take. */
  function Span(t: nat, step: nat): nat {
    if t == 0 then 0 else Span(t - 1, step) + step
  }

  lemma {:induction false} SpanMonotone(t: nat, u: nat, step: nat)
    requires t <= u
    ensures Span(t, step) <= Span(u, step)
  {
    if t < u {
      SpanMonotone(t, u - 1, step);
    }
  }

  lemma {:induction false} SpanIsProduct(t: nat, d: nat, q: nat)
    ensures Span(t, d + q) == t * d + t * q
  {
    if t > 0 {
      SpanIsProduct(t - 1, d, q);
      assert t * d == (t - 1) * d + d && t * q == (t - 1) * q + q;
    }
  }

  /** Round `i` renewed and no later round before `j` did. */
  ghost predicate InForce(rounds: seq<Round>, i: nat, j: nat) {
    i < j < |rounds| && rounds[i].renewed && forall m :: i < m < j ==> !rounds[m].renewed
  }

  lemma {:induction false} SameValidBefore(c: Timing, rounds: seq<Round>, i: nat, j: nat)
    requires Timeline(c, rounds) && InForce(rounds, i, j)
    ensures rounds[j].vb == NewValidBefore(c, rounds[i])
    decreases j
  {
    if j > i + 1 {
      SameValidBefore(c, rounds, i, j - 1);
      assert Follows(c, rounds[j - 1], rounds[j]);
    } else {
      assert Follows(c, rounds[i], rounds[i + 1]);
    }
  }

  /** A round that found the certificate valid, or minted it, ends soon after. */
  lemma EndsSoon(c: Timing, rounds: seq<Round>, i: nat, j: nat)
    requires Timeline(c, rounds) && InForce(rounds, i, j) && c.lifetime >= HOUR
    ensures rounds[i].stop < NewValidBefore(c, rounds[i]) + c.roundMax
    ensures !Expired(rounds[j]) ==> rounds[j].stop < NewValidBefore(c, rounds[i]) + c.roundMax
  {
    assert RoundOk(c, rounds[i]) && RoundOk(c, rounds[j]);
    SameValidBefore(c, rounds, i, j);
  }

  /** Among `failMax` + 1 consecutive rounds one does not fail. */
  lemma SomeRoundSucceeds(c: Timing, rounds: seq<Round>, first: nat)
    requires Timeline(c, rounds) && first + c.failMax < |rounds|
    ensures NotAllFail(rounds, first, first + c.failMax)
  {
  }

  /** The t-th consecutive expired round ends within t rounds and t pauses of expiry. */
  lemma {:induction false} ExpiredRounds(c: Timing, rounds: seq<Round>, i: nat, j: nat) returns (t: nat)
    requires Timeline(c, rounds) && InForce(rounds, i, j) && c.lifetime >= HOUR
    ensures t < j - i + 1
    ensures t <= c.failMax + 1
    ensures forall m :: j - t < m <= j ==> Expired(rounds[m])
    ensures t == 0 <==> !Expired(rounds[j])
    ensures rounds[j].stop < NewValidBefore(c, rounds[i]) + c.roundMax + Span(t, c.roundMax + c.renewLeft / 4)
    decreases j
  {
    EndsSoon(c, rounds, i, j);
    assert RoundOk(c, rounds[j]);
    if !Expired(rounds[j]) {
      t := 0;
    } else {
      assert Follows(c, rounds[j - 1], rounds[j]);
      if j == i + 1 {
        t := 1;
      } else {
        var u := ExpiredRounds(c, rounds, i, j - 1);
        t := u + 1;
        if u > c.failMax {
          SomeRoundSucceeds(c, rounds, j - 1 - c.failMax);
        }
      }
    }
  }

  /** Renewal meets its deadline. With certificate lifetimes of at least an hour, if
      (k+2)D + (k+1)floor(R/4) fits into R, then every round that still finds a
      certificate in force, including the one that replaces it, ends before the
      deadline ValidBefore + R requested for that certificate. */
  lemma RenewalMeetsDeadline(c: Timing, rounds: seq<Round>, i: nat, j: nat)
    requires Timeline(c, rounds) && InForce(rounds, i, j) && c.lifetime >= HOUR
    requires (c.failMax + 2) * c.roundMax + (c.failMax + 1) * (c.renewLeft / 4) <= c.renewLeft
    ensures rounds[j].stop < NewValidBefore(c, rounds[i]) + c.renewLeft
  {
    var t := ExpiredRounds(c, rounds, i, j);
    SpanMonotone(t, c.failMax + 1, c.roundMax + c.renewLeft / 4);
    SpanIsProduct(c.failMax + 1, c.roundMax, c.renewLeft / 4);
    Distribute(c.failMax + 1, c.roundMax);
  }

  lemma Distribute(k: nat, d: nat)
    ensures (k + 1) * d == k * d + d
  {
  }

  /** The first renewal after round `i`, if there is one up to `j`. */
  lemma {:induction false} FirstRenewal(rounds: seq<Round>, i: nat, j: nat) returns (m: nat)
    requires i < j < |rounds| && rounds[i].renewed
    ensures i < m <= j && InForce(rounds, i, m) && (m < j ==> rounds[m].renewed)
    decreases j
  {
    m := j;
    if i + 1 < j {
      m := FirstRenewal(rounds, i, j - 1);
      if m == j - 1 && !rounds[m].renewed {
        m := j;
      }
    }
  }

  /** Renewal happens. Under the same condition, if the renewer is still running at the
      deadline ValidBefore + R of a certificate, a round that replaced it has ended
      before the deadline. */
  lemma RenewedByDeadline(c: Timing, rounds: seq<Round>, i: nat, j: nat) returns (m: nat)
    requires Timeline(c, rounds) && c.lifetime >= HOUR
    requires (c.failMax + 2) * c.roundMax + (c.failMax + 1) * (c.renewLeft / 4) <= c.renewLeft
    requires i < j < |rounds| && rounds[i].renewed && rounds[j].stop >= NewValidBefore(c, rounds[i]) + c.renewLeft
    ensures i < m < j && InForce(rounds, i, m) && rounds[m].renewed
    ensures rounds[m].stop < NewValidBefore(c, rounds[i]) + c.renewLeft
  {
    m := FirstRenewal(rounds, i, j);
    RenewalMeetsDeadline(c, rounds, i, m);
  }

  // ---------------------------------------------------------------- the renewer's loop

  /** What the environment does to one round: the times spent outside the retry loop (before
      the check, between check and order, after the loop), whether the context is done, and
      the attempts. */
  datatype Env = Env(lags: (nat, nat, nat), dead: bool, work: nat -> Retry.Attempt, fires: nat -> Option<nat>)

  /** (n + 1)A + n * 15s, the longest an obtain with `n` retries can take. */
  function RetryBound(retryCount: int, longest: nat): nat {
    (Retry.LastAttempt(retryCount) + 1) * longest + Retry.LastAttempt(retryCount) * Retry.INTERVAL
  }

  ghost predicate EnvOk(c: Timing, retryCount: int, longest: nat, e: Env) {
    && c.roundMax >= RetryBound(retryCount, longest) + e.lags.0 + e.lags.1 + e.lags.2
    && (forall i: nat :: e.work(i).dur <= longest)
    && (forall i: nat :: e.fires(i).Some? ==> e.fires(i).value <= Retry.INTERVAL)
  }

  /** An obtain in this round would succeed. */
  ghost predicate Obtains(retryCount: int, e: Env) {
    !e.dead && exists k: nat :: k <= Retry.LastAttempt(retryCount) && e.work(k).ok && Retry.Reaches(e.work, e.fires, k)
  }

  /** One round of the renewer as renew carries it out: check, compute the new ValidBefore,
      retry the ACME order. With `retryCount` retries of attempts lasting at most
      `longest`, the round fits the bound the timeline assumes, and it renews exactly
      when the certificate had expired and an attempt that the retry loop reaches
      succeeds. */
  method RenewRound(c: Timing, vb: int, begin: int, retryCount: int, longest: nat, e: Env) returns (r: Round)
    requires EnvOk(c, retryCount, longest, e)
    ensures RoundOk(c, r) && r.vb == vb && r.begin == begin
    ensures r.renewed <==> vb <= begin + e.lags.0 && Obtains(retryCount, e)
    ensures r.check == begin + e.lags.0 && r.order == (if Expired(r) then r.check + e.lags.1 else r.check)
    ensures r.order + e.lags.2 <= r.stop
            <= r.order + e.lags.2 + if Expired(r) then RetryBound(retryCount, longest) else 0
  {
    var check := begin + e.lags.0;
    if check < vb {
      return Round(vb, begin, check, check, check + e.lags.2, false);
    }
    var order := check + e.lags.1;
    var outcome, attempts, elapsed := Retry.Do(e.dead, retryCount, e.work, e.fires, longest);
    r := Round(vb, begin, check, order, order + elapsed + e.lags.2, outcome.Succeeded?);
  }

  /** Some round of the window could obtain a certificate. */
  ghost predicate SomeObtains(retryCount: int, envs: seq<Env>, first: nat, last: nat)
    requires last < |envs|
  {
    exists m :: first <= m <= last && Obtains(retryCount, envs[m])
  }

  /** subscribeCertCacheEntry's loop, for as many rounds as the context lets it make: a round,
      then a pause of a quarter of the renewal window. If in any `failMax` + 1 consecutive
      rounds ACME would succeed once, what the loop does is a timeline. */
  method RunRenewer(c: Timing, vb: int, begin: int, retryCount: int, longest: nat, envs: seq<Env>)
    returns (rounds: seq<Round>)
    requires forall i :: 0 <= i < |envs| ==> EnvOk(c, retryCount, longest, envs[i])
    requires forall i: nat, j: nat :: j == i + c.failMax && j < |envs| ==> SomeObtains(retryCount, envs, i, j)
    ensures |rounds| == |envs| && Timeline(c, rounds)
    ensures forall i :: 0 <= i < |envs| ==> (rounds[i].renewed <==> Expired(rounds[i]) && Obtains(retryCount, envs[i]))
    ensures rounds != [] ==> rounds[0].vb == vb && rounds[0].begin == begin
  {
    rounds := [];
    var now, valid := begin, vb;
    for k := 0 to |envs|
      invariant |rounds| == k
      invariant forall i :: 0 <= i < k ==> RoundOk(c, rounds[i])
      invariant forall i :: 0 <= i < k - 1 ==> Follows(c, rounds[i], rounds[i + 1])
      invariant forall i :: 0 <= i < k ==> (rounds[i].renewed <==> Expired(rounds[i]) && Obtains(retryCount, envs[i]))
      invariant k == 0 ==> now == begin && valid == vb
      invariant k > 0 ==>
                  && rounds[0].vb == vb && rounds[0].begin == begin
                  && now == rounds[k - 1].stop + c.renewLeft / 4
                  && valid == if rounds[k - 1].renewed then NewValidBefore(c, rounds[k - 1]) else rounds[k - 1].vb
    {
      var r := RenewRound(c, valid, now, retryCount, longest, envs[k]);
      rounds := rounds + [r];
      now := r.stop + c.renewLeft / 4;
      if r.renewed {
        valid := NewValidBefore(c, r);
      }
    }
    forall i: nat, j: nat | j == i + c.failMax && j < |rounds| ensures NotAllFail(rounds, i, j) {
      assert SomeObtains(retryCount, envs, i, j);
      var m :| i <= m <= j && Obtains(retryCount, envs[m]);
      assert !Failed(rounds[m]);
    }
  }

  // ---------------------------------------------------------------- the default settings

  const MINUTE := 60_000_000_000

  /** With the default renewal window of 24 hours, two consecutive failed rounds are survived
      exactly if a round lasts at most 90 minutes; three only by rounds that take no time. */
  lemma DefaultWindow(d: nat)
    ensures (2 + 2) * d + (2 + 1) * (24 * HOUR / 4) <= 24 * HOUR <==> d <= 90 * MINUTE
    ensures (3 + 2) * d + (3 + 1) * (24 * HOUR / 4) <= 24 * HOUR <==> d == 0
  {
  }

  /** With the default of five retries a round keeps to that exactly if six attempts and the rest
      of the round take at most 88 minutes and 45 seconds. */
  lemma DefaultRetries(longest: nat, overhead: nat)
    ensures RetryBound(5, longest) + overhead <= 90 * MINUTE <==> 6 * longest + overhead <= 88 * MINUTE + MINUTE * 3 / 4
  {
  }

  /** So a default server whose attempts take up to 14 minutes replaces every certificate before
      its requested deadline, though any two consecutive rounds may fail. */
  lemma DefaultsMeetDeadline(rounds: seq<Round>, i: nat, j: nat)
    requires Timeline(Timing(168 * HOUR, 24 * HOUR, RetryBound(5, 14 * MINUTE) + 4 * MINUTE, 2), rounds)
    requires InForce(rounds, i, j)
    ensures rounds[j].stop < TruncateHour(rounds[i].order) + 192 * HOUR
  {
    var d := RetryBound(5, 14 * MINUTE) + 4 * MINUTE;
    DefaultRetries(14 * MINUTE, 4 * MINUTE);
    DefaultWindow(d);
    RenewalMeetsDeadline(Timing(168 * HOUR, 24 * HOUR, d, 2), rounds, i, j);
  }
}
