/** The exact retry budget of handleFailover. */
module FailoverStandby {
  import opened Base
  import opened FailoverModel
  import opened FailoverSafety
  import opened FailoverTheorems
  import opened FailoverBudget

  /** The goroutine carries the standby's retry counter. */
  predicate Counts(t: Thread) {
    t.FTop? || t.FEnter? || t.FStream? || t.FAfter? || t.FBudget? || t.FSleep?
  }

  /** The counter is the streak of short standby streams, at the limit only while compared. */
  ghost predicate CountOk(c: Config, log: seq<Event>, t: Thread) {
    Counts(t) ==>
      && t.n == Streak(log)
      && (if t.FBudget? then 1 <= t.n && EndsWith(log, Short) else t.n < Budget(c))
      && (t.FSleep? ==> EndsWith(log, if t.pause == Reconnect then GaveUp else Short))
  }

  ghost predicate StandbyInv(c: Config, s: State) {
    && LogOk(c, s.book.standbyLog)
    && forall i :: 0 <= i < |s.threads| ==> CountOk(c, s.book.standbyLog, s.threads[i])
  }

  /** The failover goroutine's own step. */
  lemma StandbyActs(c: Config, b: Book, g: Shared, retry: nat, t: Thread, alt: bool)
    requires LogOk(c, b.standbyLog) && CountOk(c, b.standbyLog, t) && EnabledThread(g, t, alt)
    ensures var log := BookMove(c, b, g, t, alt).standbyLog;
            LogOk(c, log) && CountOk(c, log, ThreadMove(c, g, retry, t, alt))
  {
    if t.FAfter? {
      StandbyEnded(c, b, g, retry, t, alt);
    } else if t.FBudget? {
      StandbyCompares(c, b, g, retry, t, alt);
    }
  }

  lemma StandbyEnded(c: Config, b: Book, g: Shared, retry: nat, t: Thread, alt: bool)
    requires LogOk(c, b.standbyLog) && CountOk(c, b.standbyLog, t) && t.FAfter?
    ensures var log := BookMove(c, b, g, t, alt).standbyLog;
            LogOk(c, log) && CountOk(c, log, ThreadMove(c, g, retry, t, alt))
  {
    if !Cancelled(g, g.sess) {
      LogGrows(c, b.standbyLog, if t.short then Short else Long);
    }
  }

  lemma StandbyCompares(c: Config, b: Book, g: Shared, retry: nat, t: Thread, alt: bool)
    requires LogOk(c, b.standbyLog) && CountOk(c, b.standbyLog, t) && t.FBudget?
    ensures var log := BookMove(c, b, g, t, alt).standbyLog;
            LogOk(c, log) && CountOk(c, log, ThreadMove(c, g, retry, t, alt))
  {
    if t.n >= c.retryCount {
      LogGrows(c, b.standbyLog, GaveUp);
    }
  }

  /** Only a failover goroutine touches the log, and nobody else counts meanwhile. */
  lemma LogIsOwn(c: Config, s: State, i: nat, alt: bool, j: nat)
    requires Inv(c, s) && i < |s.threads| && j < |s.threads| && i != j
    ensures BookMove(c, s.book, s.g, s.threads[i], alt).standbyLog == s.book.standbyLog || !Counts(s.threads[j])
  {
    ClashFree(c, s, i, j);
  }

  lemma StandbyThread(c: Config, s: State, i: nat, alt: bool)
    requires Inv(c, s) && StandbyInv(c, s) && Enabled(s, ThreadStep(i, alt))
    ensures StandbyInv(c, Next(c, s, ThreadStep(i, alt)))
  {
    var s' := Next(c, s, ThreadStep(i, alt));
    StandbyActs(c, s.book, s.g, s.book.retry, s.threads[i], alt);
    forall j | 0 <= j < |s'.threads| ensures CountOk(c, s'.book.standbyLog, s'.threads[j]) {
      if j != i {
        LogIsOwn(c, s, i, alt, j);
      }
    }
  }

  lemma StandbyDisp(c: Config, s: State, alt: bool)
    requires Inv(c, s) && StandbyInv(c, s) && Enabled(s, DispStep(alt))
    ensures StandbyInv(c, Next(c, s, DispStep(alt)))
  {
    var s' := Next(c, s, DispStep(alt));
    forall j | 0 <= j < |s'.threads| ensures CountOk(c, s'.book.standbyLog, s'.threads[j]) {
      if j < |s.threads| {
        assert ThreadOk(c, s.g, s.threads[j]) && s'.threads[j] == s.threads[j];
      }
    }
  }

  lemma {:induction false} StandbyAlong(c: Config, s: State, acts: seq<Action>)
    requires Inv(c, s) && StandbyInv(c, s) && Executes(c, s, acts)
    ensures StandbyInv(c, After(c, s, acts))
    decreases |acts|
  {
    if acts != [] {
      match acts[0] {
        case ThreadStep(i, alt) => StandbyThread(c, s, i, alt);
        case DispStep(alt) => StandbyDisp(c, s, alt);
        case _ => assert Next(c, s, acts[0]).book == s.book && Next(c, s, acts[0]).threads == s.threads;
      }
      InvStep(c, s, acts[0]);
      StandbyAlong(c, Next(c, s, acts[0]), acts[1..]);
    }
  }

  /** Exact standby budget. A failover goroutine sleeps the long reconnect interval exactly after
      max(1, RetryCount) consecutive short standby streams since it started, since its last
      long-lived stream or since its last such sleep, and the short backoff after any other
      short stream; its counter is that streak, below the budget whenever a stream starts. */
  lemma StandbyBudgetExact(c: Config, s: State, i: nat)
    requires Reachable(c, s) && FailoverAlive(s, i)
    ensures var log := s.book.standbyLog; var t := s.threads[i];
            && (forall k :: 0 <= k < |log| ==> (log[k] == GaveUp <==> Streak(log[..k]) == Max(1, c.retryCount)))
            && (t.FSleep? ==> EndsWith(log, if t.pause == Reconnect then GaveUp else Short))
            && (t.FTop? || t.FEnter? || t.FStream? ==> t.n == Streak(log) < Max(1, c.retryCount))
  {
    InvReachable(c, s);
    var acts :| Executes(c, Init(), acts) && After(c, Init(), acts) == s;
    StandbyAlong(c, Init(), acts);
    assert CountOk(c, s.book.standbyLog, s.threads[i]);
    var log := s.book.standbyLog;
    forall k | 0 <= k < |log| ensures log[k] == GaveUp <==> Streak(log[..k]) == Max(1, c.retryCount) {
      assert ExactAt(c, log, k);
    }
  }
}
