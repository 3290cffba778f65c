/** When the driver token can be lost before Stop, and what that costs. */
module FailoverLoss {
  import opened Base
  import opened FailoverModel
  import opened FailoverSafety
  import opened FailoverTheorems

  // ---------------------------------------------------------------- loss is final

  /** A machine without a token never gets one back: no main stream, no failover and
      no restart ever starts again. */
  lemma {:induction false} LostForGood(c: Config, s: State, acts: seq<Action>)
    requires Reachable(c, s) && !HasToken(s) && Executes(c, s, acts)
    ensures !HasToken(After(c, s, acts))
    ensures forall i: nat :: FailoverAlive(After(c, s, acts), i) ==> FailoverAlive(s, i)
    decreases |acts|
  {
    if acts != [] {
      InvReachable(c, s);
      var s' := Next(c, s, acts[0]);
      if h' :| Holds(s', h') {
        var h := TokenComesFromToken(c, s, acts[0], h');
      }
      assert !Holds(s, AtDispatcher);
      forall i: nat | FailoverAlive(s', i) ensures FailoverAlive(s, i) {
        if acts[0].ThreadStep? {
          NoFailoverFromOthers(c, s.g, s.book.retry, s.threads[acts[0].i], acts[0].alt);
        }
      }
      ReachableStep(c, s, acts[0]);
      LostForGood(c, s', acts[1..]);
    }
  }

  lemma NoFailoverFromOthers(c: Config, g: Shared, retry: nat, t: Thread, alt: bool)
    requires EnabledThread(g, t, alt)
    ensures IsFailover(ThreadMove(c, g, retry, t, alt)) ==> IsFailover(t)
  {
  }

  // ---------------------------------------------------------------- without a standby

  lemma {:induction false} NeverDroppedAlong(c: Config, s: State, acts: seq<Action>)
    requires !c.standbyExists && Inv(c, s) && !s.book.dropped && Executes(c, s, acts)
    ensures !After(c, s, acts).book.dropped
    decreases |acts|
  {
    if acts != [] {
      OnlyGivingUpDrops(c, s, acts[0]);
      InvStep(c, s, acts[0]);
      NeverDroppedAlong(c, Next(c, s, acts[0]), acts[1..]);
    }
  }

  // ---------------------------------------------------------------- with a standby

  /** The dispatcher is idle and Stop has not been called. */
  predicate Idle(s: State) {
    !s.g.root && s.g.slot.None? && s.g.disp == DSelect
  }

  /** `t` has every goroutine of `s` other than `i` at the same point. */
  ghost predicate KeepsBut(s: State, t: State, i: nat) {
    |s.threads| <= |t.threads| && forall j :: 0 <= j < |s.threads| && j != i ==> t.threads[j] == s.threads[j]
  }

  /** Goroutine `i` takes its next step. */
  lemma Go(c: Config, s: State, i: nat, alt: bool) returns (t: State)
    requires Reachable(c, s) && i < |s.threads| && EnabledThread(s.g, s.threads[i], alt)
    ensures Reachable(c, t) && t == Next(c, s, ThreadStep(i, alt))
  {
    ReachableStep(c, s, ThreadStep(i, alt));
    t := Next(c, s, ThreadStep(i, alt));
  }

  /** The dispatcher takes its next step. */
  lemma Disp(c: Config, s: State) returns (t: State)
    requires Reachable(c, s) && EnabledDisp(s.g, true)
    ensures Reachable(c, t) && t == Next(c, s, DispStep(true))
  {
    ReachableStep(c, s, DispStep(true));
    t := Next(c, s, DispStep(true));
  }

  /** A short main stream reaches the budget comparison. */
  lemma StreamFails(c: Config, s: State, i: nat) returns (t: State)
    requires Reachable(c, s) && Idle(s) && i < |s.threads| && s.threads[i].MRun?
    ensures Reachable(c, t) && t.g == s.g && t.threads == s.threads[i := MBudget]
    ensures t.book == s.book.(retry := s.book.retry + 1, log := s.book.log + [Short])
  {
    t := Go(c, s, i, true);
    t := Go(c, t, i, true);
    t := Go(c, t, i, true);
  }

  /** A MAIN state put in the channel becomes a running main goroutine. */
  lemma MainDispatched(c: Config, s: State) returns (t: State)
    requires Reachable(c, s) && s.g.slot == Some(Main) && s.g.disp == DSelect
    ensures Reachable(c, t) && t.g == s.g.(slot := None) && t.threads == s.threads + [MRun]
    ensures t.book == s.book.(started := true)
  {
    t := Disp(c, s);
    assert t.threads == s.threads;
    t := Disp(c, t);
  }

  lemma RetryOnce(c: Config, s: State, i: nat) returns (t: State)
    requires Reachable(c, s) && Idle(s) && i < |s.threads| && s.threads[i].MRun?
    requires s.book.retry + 1 < c.retryCount
    ensures Reachable(c, t) && t.g == s.g && t.threads == s.threads[i := MExit] + [MRun]
    ensures t.book.retry == s.book.retry + 1 && t.book.started
  {
    t := StreamFails(c, s, i);
    t := Go(c, t, i, true);
    t := Go(c, t, i, true);
    t := Go(c, t, i, true);
    assert t.threads == s.threads[i := MExit];
    t := MainDispatched(c, t);
  }

  /** Main can keep failing until only one attempt of its budget is left. */
  lemma {:induction false} LastAttempt(c: Config, s: State, i: nat) returns (t: State, k: nat)
    requires Reachable(c, s) && Idle(s) && i < |s.threads| && s.threads[i].MRun? && s.book.started
    ensures Reachable(c, t) && t.g == s.g && KeepsBut(s, t, i) && t.book.started && c.retryCount <= t.book.retry + 1
    ensures k < |t.threads| && t.threads[k].MRun? && (k == i || |s.threads| <= k)
    decreases c.retryCount - s.book.retry
  {
    t, k := s, i;
    if s.book.retry + 1 < c.retryCount {
      t := RetryOnce(c, s, i);
      t, k := LastAttempt(c, t, |s.threads|);
    }
  }

  /** The last attempt fails too, and handleMain gives up on main. */
  lemma GivesUpOnMain(c: Config, s: State, i: nat) returns (t: State)
    requires Reachable(c, s) && Idle(s) && i < |s.threads| && s.threads[i].MRun? && c.retryCount <= s.book.retry + 1
    ensures Reachable(c, t) && t.g == s.g && t.threads == s.threads[i := MChoose]
    ensures t.book.started == s.book.started
  {
    t := StreamFails(c, s, i);
    t := Go(c, t, i, true);
  }

  lemma FirstStream(c: Config) returns (t: State)
    ensures Reachable(c, t) && Idle(t) && t.threads == [MRun] && t.book.started
    ensures t.g == Init().g.(caller := CAwaitRoot)
  {
    assert Executes(c, Init(), []) && After(c, Init(), []) == Init();
    ReachableStep(c, Init(), CallerStep(true));
    t := Next(c, Init(), CallerStep(true));
    t := MainDispatched(c, t);
  }

  /** FAILOVER opens session 1: standby, fallback and restart goroutines are spawned. */
  lemma OpenSession(c: Config, s: State, i: nat) returns (t: State)
    requires Reachable(c, s) && Idle(s) && i < |s.threads| && s.threads[i].MChoose?
    requires c.standbyExists && s.g == Init().g.(caller := CAwaitRoot)
    ensures Reachable(c, t) && Idle(t) && t.book == s.book.(standbyLog := [])
    ensures t.threads == s.threads[i := MExit] + [FTop(1, 0), BLoad(1), RWait(1)]
    ensures t.g == s.g.(sess := 1, cancelled := {0}, active := true)
  {
    t := Go(c, s, i, true);
    t := Go(c, t, i, true);
    var base := t.threads;
    assert base == s.threads[i := MExit];
    t := Disp(c, t);
    t := Disp(c, t);
    t := Disp(c, t);
    t := Disp(c, t);
    assert t.threads == base;
    t := OpenSessionSpawns(c, t);
  }

  lemma OpenSessionSpawns(c: Config, s: State) returns (t: State)
    requires Reachable(c, s) && s.g.disp == DSpawnFailover && s.g.slot.None? && s.g.sess == 1
    ensures Reachable(c, t) && t.g == s.g.(disp := DSelect) && t.book == s.book.(standbyLog := [])
    ensures t.threads == s.threads + [FTop(1, 0), BLoad(1), RWait(1)]
  {
    var u := StartStandby(c, s);
    t := ArmSession(c, u);
    assert t.threads == s.threads + [FTop(1, 0), BLoad(1), RWait(1)];
  }

  /** The failover goroutine is spawned and TRY_FALLBACK sent and read. */
  lemma StartStandby(c: Config, s: State) returns (t: State)
    requires Reachable(c, s) && s.g.disp == DSpawnFailover && s.g.slot.None? && s.g.sess == 1
    ensures Reachable(c, t) && t.g == s.g.(disp := DSpawnFallback) && t.book == s.book.(standbyLog := [])
    ensures t.threads == s.threads + [FTop(1, 0)]
  {
    t := Disp(c, s);
    t := Disp(c, t);
    t := Disp(c, t);
  }

  /** TRY_FALLBACK arms the fallback goroutine, then RESTART_MAIN starts the timer. */
  lemma ArmSession(c: Config, s: State) returns (t: State)
    requires Reachable(c, s) && s.g.disp == DSpawnFallback && s.g.slot.None? && s.g.sess == 1
    ensures Reachable(c, t) && t.g == s.g.(disp := DSelect) && t.book == s.book
    ensures t.threads == s.threads + [BLoad(1), RWait(1)]
  {
    t := Disp(c, s);
    t := Disp(c, t);
    t := Disp(c, t);
    assert t.threads == s.threads + [BLoad(1)];
    t := Disp(c, t);
  }

  /** A run whose main streams all fail opens session 1. */
  lemma FirstSession(c: Config) returns (t: State)
    requires c.standbyExists
    ensures Reachable(c, t) && Idle(t) && t.book.started && |t.threads| >= 3
    ensures t.threads[|t.threads| - 3..] == [FTop(1, 0), BLoad(1), RWait(1)]
    ensures t.g == Init().g.(caller := CAwaitRoot, sess := 1, cancelled := {0}, active := true)
  {
    t := FirstStream(c);
    var k: nat;
    t, k := LastAttempt(c, t, 0);
    t := GivesUpOnMain(c, t, k);
    t := OpenSession(c, t, k);
  }

  /** A restart goroutine sleeps its interval and asks for MAIN. */
  lemma TimerFires(c: Config, s: State, i: nat) returns (t: State)
    requires Reachable(c, s) && Idle(s) && i < |s.threads| && s.threads[i].RWait?
    ensures Reachable(c, t) && t.g == s.g.(slot := Some(Main)) && t.book == s.book
    ensures t.threads == s.threads[i := RExit]
  {
    t := Go(c, s, i, true);
    t := Go(c, t, i, true);
  }

  /** The fallback goroutine is armed and main is tried again. */
  lemma MainRetried(c: Config, s: State, b: nat) returns (t: State)
    requires Reachable(c, s) && Idle(s) && s.book.started
    requires b + 2 == |s.threads| && s.threads[b] == BLoad(1) && s.threads[b + 1] == RWait(1)
    ensures Reachable(c, t) && t.g == s.g && t.book == s.book
    ensures t.threads == s.threads[b := BWait(1, s.g.recvGen)][b + 1 := RExit] + [MRun]
  {
    t := Go(c, s, b, true);
    assert t.threads == s.threads[b := BWait(1, s.g.recvGen)] && t.g == s.g && t.book == s.book;
    t := TimerFires(c, t, b + 1);
    t := MainDispatched(c, t);
  }

  /** Main delivers one message on the last stream of its budget, and that stream ends before
      the fallback goroutine reacts; the standby is still marked active, so handleMain asks
      for RESTART_MAIN in the same session. */
  lemma MainReturnsAndFails(c: Config, s: State, b: nat) returns (t: State, r: nat)
    requires Reachable(c, s) && Idle(s) && s.book.started && s.g.active && s.g.sess == 1
    requires b + 2 == |s.threads| && s.threads[b] == BLoad(1) && s.threads[b + 1] == RWait(1)
    ensures Reachable(c, t) && Idle(t) && t.g == s.g.(recvGen := s.g.recvGen + 1)
    ensures b < |t.threads| && t.threads[b] == BWait(1, s.g.recvGen)
    ensures r < |t.threads| && r != b && t.threads[r] == RWait(1)
    ensures forall j :: 0 <= j < b ==> t.threads[j] == s.threads[j]
  {
    t := MainRetried(c, s, b);
    var k: nat;
    t, k := LastAttempt(c, t, b + 2);
    ReachableStep(c, t, MainReceives);
    t := Next(c, t, MainReceives);
    t := GivesUpOnMain(c, t, k);
    t, r := RestartAgain(c, t, k);
  }

  lemma RestartAgain(c: Config, s: State, k: nat) returns (t: State, r: nat)
    requires Reachable(c, s) && Idle(s) && s.g.active && s.g.sess == 1
    requires k < |s.threads| && s.threads[k].MChoose?
    ensures Reachable(c, t) && t.g == s.g && KeepsBut(s, t, k)
    ensures r == |s.threads| && r < |t.threads| && t.threads[r] == RWait(1)
  {
    t := Go(c, s, k, true);
    t := Go(c, t, k, true);
    t := Disp(c, t);
    t := Disp(c, t);
    r := |s.threads|;
  }

  /** Now the fallback fires and cancels the session. */
  lemma FallbackFires(c: Config, s: State, b: nat) returns (t: State)
    requires Reachable(c, s) && !s.g.root
    requires b < |s.threads| && s.threads[b].BWait? && s.threads[b].on == 1 && s.threads[b].gen < s.g.recvGen
    ensures Reachable(c, t) && !t.g.root && t.g.sess == s.g.sess && 1 in t.g.cancelled
    ensures t.threads == s.threads[b := BExit]
  {
    t := Go(c, s, b, true);
    t := Go(c, t, b, true);
    t := Go(c, t, b, true);
  }

  /** The restart goroutine gives up and the standby goroutine leaves. */
  lemma SessionEnds(c: Config, s: State, f: nat, r: nat) returns (t: State)
    requires Reachable(c, s) && !s.g.root && s.g.sess == 1 && 1 in s.g.cancelled
    requires f < |s.threads| && r < |s.threads| && f != r
    requires s.threads[f] == FTop(1, 0) && s.threads[r] == RWait(1)
    ensures Reachable(c, t) && !t.g.root && t.book.dropped && !t.g.active
  {
    t := Go(c, s, r, false);
    t := Go(c, t, f, true);
    t := Go(c, t, f, true);
    t := Go(c, t, f, true);
  }

  /** Every configuration with a standby has a run, without Stop, after which neither a
      token nor a standby goroutine is left. */
  lemma LossHappens(c: Config) returns (t: State)
    requires c.standbyExists
    ensures Reachable(c, t) && !t.g.root && !HasToken(t) && forall i: nat :: !FailoverAlive(t, i)
  {
    t := FirstSession(c);
    var f := |t.threads| - 3;
    var r: nat;
    t, r := MainReturnsAndFails(c, t, f + 1);
    t := FallbackFires(c, t, f + 1);
    t := SessionEnds(c, t, f, r);
    SingleDriverToken(c, t);
    StandbyGone(c, t);
  }

  /** The last failover goroutine has cleared the flag. */
  lemma StandbyGone(c: Config, t: State)
    requires Reachable(c, t) && !t.g.active
    ensures forall i: nat :: !FailoverAlive(t, i)
  {
    StandbyOwnership(c, t);
  }

  /** "Until Stop, somebody is still driving the client" holds for every run exactly when
      no standby server is configured. With one, a run exists whose final state has no
      driver and no standby, and by LostForGood none ever returns. */
  lemma DriverSurvivesIffNoStandby(c: Config)
    ensures (forall s :: Reachable(c, s) && !s.g.root ==> HasToken(s)) <==> !c.standbyExists
  {
    if c.standbyExists {
      var t := LossHappens(c);
    } else {
      forall s | Reachable(c, s) && !s.g.root ensures HasToken(s) {
        SingleDriverToken(c, s);
        var acts :| Executes(c, Init(), acts) && After(c, Init(), acts) == s;
        NeverDroppedAlong(c, Init(), acts);
      }
    }
  }
}
