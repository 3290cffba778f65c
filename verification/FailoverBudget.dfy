/** The exact retry budget of handleMain. */
module FailoverBudget {
  import opened Base
  import opened FailoverModel
  import opened FailoverSafety
  import opened FailoverTheorems

  /** How many streams in a row, ending now, were shorter than the retry window. */
  function Streak(log: seq<Event>): (n: nat)
    ensures n <= |log|
  {
    if log == [] || log[|log| - 1] != Short then 0 else 1 + Streak(log[..|log| - 1])
  }

  /** `Streak` is the length of the maximal suffix of short streams. */
  lemma {:induction false} StreakIsMaximalSuffix(log: seq<Event>, n: nat)
    ensures Streak(log) == n <==>
              && n <= |log|
              && (forall k :: |log| - n <= k < |log| ==> log[k] == Short)
              && (n < |log| ==> log[|log| - n - 1] != Short)
  {
    if log != [] && log[|log| - 1] == Short {
      if n > 0 {
        StreakIsMaximalSuffix(log[..|log| - 1], n - 1);
      }
    } else if log != [] && n > 0 {
      assert log[|log| - 1] != Short;
    }
  }

  function Budget(c: Config): nat {
    Max(1, c.retryCount)
  }

  /** Goroutine `i` is comparing the counter with the budget. */
  predicate Comparing(s: State, i: nat) {
    i < |s.threads| && s.threads[i].MBudget?
  }

  /** handleMain has given up on main and is choosing or sending the follow-up state. */
  predicate GivenUp(t: Thread) {
    t.MChoose? || t == MSend(Failover) || t == MSend(RestartMain)
  }

  /** At `k` handleMain gave up exactly if the streak before had used up the budget. */
  predicate ExactAt(c: Config, log: seq<Event>, k: nat)
    requires k < |log|
  {
    log[k] == GaveUp <==> Streak(log[..k]) == Budget(c)
  }

  ghost predicate LogOk(c: Config, log: seq<Event>) {
    && (forall k: nat :: k < |log| ==> ExactAt(c, log, k))
    && Streak(log) <= Budget(c)
  }

  /** handleMain will try main again: at once, or after its backoff. */
  predicate Retries(t: Thread) {
    t.MBackoff? || t == MSend(Main)
  }

  /** The log's last event is `e`. */
  predicate EndsWith(log: seq<Event>, e: Event) {
    log != [] && log[|log| - 1] == e
  }

  ghost predicate BudgetInv(c: Config, s: State) {
    && LogOk(c, s.book.log)
    && s.book.retry == Streak(s.book.log)
    && (s.book.retry == Budget(c) ==> exists i: nat :: Comparing(s, i))
    && (forall i: nat :: Comparing(s, i) ==> s.book.retry >= 1)
    && (forall i :: 0 <= i < |s.threads| && GivenUp(s.threads[i]) ==> EndsWith(s.book.log, GaveUp))
    && (forall i :: 0 <= i < |s.threads| && Retries(s.threads[i]) ==> RetryOk(s.book.log, s.threads[i]))
  }

  /** A backoff follows a short stream, a MAIN a stream that did not use up the budget. */
  predicate RetryOk(log: seq<Event>, t: Thread) {
    EndsWith(log, Short) || (t == MSend(Main) && EndsWith(log, Long))
  }

  lemma LogGrows(c: Config, log: seq<Event>, e: Event)
    requires LogOk(c, log)
    requires e == GaveUp <==> Streak(log) == Budget(c)
    ensures LogOk(c, log + [e])
    ensures Streak(log + [e]) == if e == Short then Streak(log) + 1 else 0
  {
    var l := log + [e];
    assert l[..|log|] == log;
    forall k: nat | k < |l| ensures ExactAt(c, l, k) {
      if k < |log| {
        assert ExactAt(c, log, k) && l[..k] == log[..k];
      }
    }
  }

  /** Only a goroutine at MCount or MBudget touches the counter or its log. */
  lemma BookUntouched(c: Config, b: Book, g: Shared, t: Thread, alt: bool)
    requires !t.MCount? && !t.MBudget?
    ensures BookMove(c, b, g, t, alt).retry == b.retry && BookMove(c, b, g, t, alt).log == b.log
    ensures GivenUp(ThreadMove(c, g, b.retry, t, alt)) ==> GivenUp(t)
    ensures !ThreadMove(c, g, b.retry, t, alt).MBudget?
    ensures Retries(ThreadMove(c, g, b.retry, t, alt)) ==> t.MBackoff?
  {
  }

  lemma BudgetStepOther(c: Config, s: State, a: Action)
    requires BudgetInv(c, s) && Enabled(s, a)
    requires a.ThreadStep? ==> !s.threads[a.i].MCount? && !s.threads[a.i].MBudget?
    ensures BudgetInv(c, Next(c, s, a))
  {
    var s' := Next(c, s, a);
    if a.ThreadStep? {
      BookUntouched(c, s.book, s.g, s.threads[a.i], a.alt);
    }
    assert s'.book.retry == s.book.retry && s'.book.log == s.book.log;
    if s.book.retry == Budget(c) {
      var i: nat :| Comparing(s, i);
      assert Comparing(s', i);
    }
    forall i: nat | Comparing(s', i) ensures Comparing(s, i) {
    }
  }

  /** The goroutine is neither comparing, choosing nor sending a driving state. */
  predicate Aside(t: Thread) {
    !t.MBudget? && !GivenUp(t) && !Retries(t)
  }

  ghost predicate OthersAside(threads: seq<Thread>, i: nat) {
    forall j: nat :: j < |threads| && j != i ==> Aside(threads[j])
  }

  /** While one main goroutine drives, no other compares, chooses or sends. */
  lemma AloneAtTheCounter(c: Config, s: State, i: nat)
    requires Inv(c, s) && i < |s.threads| && (s.threads[i].MCount? || s.threads[i].MBudget?)
    ensures OthersAside(s.threads, i)
  {
    forall j: nat | j < |s.threads| && j != i ensures Aside(s.threads[j]) {
      ClashFree(c, s, i, j);
    }
  }

  lemma BudgetStepCount(c: Config, s: State, i: nat, alt: bool)
    requires Inv(c, s) && BudgetInv(c, s) && Enabled(s, ThreadStep(i, alt)) && s.threads[i].MCount?
    ensures BudgetInv(c, Next(c, s, ThreadStep(i, alt)))
  {
    AloneAtTheCounter(c, s, i);
    assert !Comparing(s, i);
    CounterStep(c, s.book, s.g, s.threads[i], alt);
    CountedOk(c, s, Next(c, s, ThreadStep(i, alt)), i);
  }

  /** The state after counting one stream, given what the count did to the book. */
  lemma CountedOk(c: Config, s: State, s': State, i: nat)
    requires i < |s.threads| && s.threads[i].MCount?
    requires OthersAside(s.threads, i)
    requires s'.threads == s.threads[i := if s.threads[i].short then MBudget else MSend(Main)]
    requires LogOk(c, s'.book.log) && s'.book.retry == Streak(s'.book.log)
    requires s'.book.retry >= 1 <==> s.threads[i].short
    requires EndsWith(s'.book.log, if s.threads[i].short then Short else Long)
    ensures BudgetInv(c, s')
  {
    if s.threads[i].short {
      assert Comparing(s', i);
    }
    assert OthersAside(s'.threads, i);
  }

  lemma CounterStep(c: Config, b: Book, g: Shared, t: Thread, alt: bool)
    requires LogOk(c, b.log) && b.retry == Streak(b.log) && b.retry < Budget(c) && t.MCount?
    ensures var b' := BookMove(c, b, g, t, alt);
            && LogOk(c, b'.log) && b'.retry == Streak(b'.log)
            && b'.retry == (if t.short then b.retry + 1 else 0)
            && EndsWith(b'.log, if t.short then Short else Long)
    ensures ThreadMove(c, g, b.retry, t, alt) == if t.short then MBudget else MSend(Main)
  {
    LogGrows(c, b.log, if t.short then Short else Long);
  }

  lemma BudgetStepCompare(c: Config, s: State, i: nat, alt: bool)
    requires Inv(c, s) && BudgetInv(c, s) && Enabled(s, ThreadStep(i, alt)) && s.threads[i].MBudget?
    ensures BudgetInv(c, Next(c, s, ThreadStep(i, alt)))
  {
    assert Comparing(s, i);
    AloneAtTheCounter(c, s, i);
    if s.book.retry >= c.retryCount {
      LogGrows(c, s.book.log, GaveUp);
    } else {
      assert EndsWith(s.book.log, Short);
    }
    ComparedOk(c, s, Next(c, s, ThreadStep(i, alt)), i);
  }

  lemma ComparedOk(c: Config, s: State, s': State, i: nat)
    requires i < |s.threads| && s.threads[i].MBudget?
    requires OthersAside(s.threads, i)
    requires s'.threads == s.threads[i := if s.book.retry < c.retryCount then MBackoff else MChoose]
    requires LogOk(c, s'.book.log) && s'.book.retry == Streak(s'.book.log) && s'.book.retry < Budget(c)
    requires EndsWith(s'.book.log, if s.book.retry < c.retryCount then Short else GaveUp)
    ensures BudgetInv(c, s')
  {
    assert OthersAside(s'.threads, i);
  }

  lemma {:induction false} BudgetAlong(c: Config, s: State, acts: seq<Action>)
    requires Inv(c, s) && BudgetInv(c, s) && Executes(c, s, acts)
    ensures BudgetInv(c, After(c, s, acts))
    decreases |acts|
  {
    if acts != [] {
      var a := acts[0];
      if a.ThreadStep? && s.threads[a.i].MCount? {
        BudgetStepCount(c, s, a.i, a.alt);
      } else if a.ThreadStep? && s.threads[a.i].MBudget? {
        BudgetStepCompare(c, s, a.i, a.alt);
      } else {
        BudgetStepOther(c, s, a);
      }
      InvStep(c, s, a);
      BudgetAlong(c, Next(c, s, a), acts[1..]);
    }
  }

  /** Exact retry budget. Over every run handleMain gives up exactly when
      max(1, RetryCount) consecutive streams since the last long-lived stream or the
      last time it gave up were short, never earlier and never later; it sends
      FAILOVER or RESTART_MAIN only straight after giving up, and MAIN only straight
      after a stream that did not make it give up; and between attempts the counter
      equals that streak and is below the budget. */
  lemma RetryBudgetExact(c: Config, s: State)
    requires Reachable(c, s)
    ensures forall k :: 0 <= k < |s.book.log| ==>
              (s.book.log[k] == GaveUp <==> Streak(s.book.log[..k]) == Max(1, c.retryCount))
    ensures s.book.retry == Streak(s.book.log)
    ensures (forall i: nat :: !Comparing(s, i)) ==> s.book.retry < Max(1, c.retryCount)
    ensures forall i :: 0 <= i < |s.threads| && GivenUp(s.threads[i]) ==> EndsWith(s.book.log, GaveUp)
    ensures forall i :: 0 <= i < |s.threads| && s.threads[i].MBackoff? ==> EndsWith(s.book.log, Short)
    ensures forall i :: 0 <= i < |s.threads| && s.threads[i] == MSend(Main) ==>
              EndsWith(s.book.log, Short) || EndsWith(s.book.log, Long)
  {
    var acts :| Executes(c, Init(), acts) && After(c, Init(), acts) == s;
    BudgetAlong(c, Init(), acts);
    var log := s.book.log;
    forall k | 0 <= k < |log| ensures log[k] == GaveUp <==> Streak(log[..k]) == Max(1, c.retryCount) {
      assert ExactAt(c, log, k);
    }
  }

  // ---------------------------------------------------------------- what giving up sends

  /** The flag is up exactly while a failover goroutine is about to be spawned or exists. */
  ghost predicate FlagMeansFailover(s: State) {
    s.g.active ==> s.g.disp == DSpawnFailover || exists i: nat :: FailoverAlive(s, i)
  }

  lemma FlagStep(c: Config, s: State, a: Action)
    requires Inv(c, s) && FlagMeansFailover(s) && Enabled(s, a)
    ensures FlagMeansFailover(Next(c, s, a))
  {
    var s' := Next(c, s, a);
    match a
    case DispStep(alt) =>
      if s.g.disp == DSpawnFailover {
        assert FailoverAlive(s', |s.threads|);
      } else if i: nat :| FailoverAlive(s, i) {
        assert FailoverAlive(s', i);
      }
    case ThreadStep(k, alt) =>
      FlagThread(c, s.g, s.book.retry, s.threads[k], alt);
      if i: nat :| FailoverAlive(s, i) {
        if i != k || !s.threads[k].FStore? {
          assert FailoverAlive(s', i);
        }
      }
    case _ =>
      CallerKeepsFlag(s.g, a);
      if i: nat :| FailoverAlive(s, i) {
        assert FailoverAlive(s', i);
      }
  }

  lemma FlagThread(c: Config, g: Shared, retry: nat, t: Thread, alt: bool)
    requires EnabledThread(g, t, alt)
    ensures SharedMove(g, t, alt).active == (g.active && !t.FStore?) && SharedMove(g, t, alt).disp == g.disp
    ensures IsFailover(t) && !t.FStore? ==> IsFailover(ThreadMove(c, g, retry, t, alt))
  {
  }

  lemma CallerKeepsFlag(g: Shared, a: Action)
    ensures a.CallerStep? ==> CallerMove(g, a.alt).active == g.active && CallerMove(g, a.alt).disp == g.disp
  {
  }

  lemma {:induction false} FlagAlong(c: Config, s: State, acts: seq<Action>)
    requires Inv(c, s) && FlagMeansFailover(s) && Executes(c, s, acts)
    ensures FlagMeansFailover(After(c, s, acts))
    decreases |acts|
  {
    if acts != [] {
      FlagStep(c, s, acts[0]);
      InvStep(c, s, acts[0]);
      FlagAlong(c, Next(c, s, acts[0]), acts[1..]);
    }
  }

  /** Giving up is answered. In every reachable state a main goroutine that has used up its
      budget asks next for FAILOVER if a standby is configured and no failover goroutine
      exists, and for RESTART_MAIN otherwise. */
  lemma GivingUpAnswered(c: Config, s: State, i: nat, alt: bool)
    requires Reachable(c, s) && i < |s.threads| && s.threads[i].MChoose?
    ensures Enabled(s, ThreadStep(i, alt))
    ensures var t := Next(c, s, ThreadStep(i, alt)).threads[i];
            && (t == MSend(Failover) <==> c.standbyExists && forall j: nat :: !FailoverAlive(s, j))
            && (t == MSend(RestartMain) <==> !c.standbyExists || exists j: nat :: FailoverAlive(s, j))
  {
    InvReachable(c, s);
    assert ThreadOk(c, s.g, s.threads[i]);
    StandbyOwnership(c, s);
    var acts :| Executes(c, Init(), acts) && After(c, Init(), acts) == s;
    FlagAlong(c, Init(), acts);
  }
}
