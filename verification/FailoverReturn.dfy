/** What may still be under way when GRPCMain has returned. */
module FailoverReturn {
  import opened Base
  import opened FailoverModel
  import opened FailoverSafety
  import opened FailoverShutdown
  import opened FailoverLoss

  // ---------------------------------------------------------------- nothing but the flag

  /** GRPCMain returns only at a zero wait group, which stays zero. */
  ghost predicate ReturnedAtZero(s: State) {
    WaitGroupExact(s) && (s.g.caller == CReturned ==> s.wg == 0)
  }

  lemma ReturnedAtZeroStep(c: Config, s: State, a: Action)
    requires ReturnedAtZero(s) && Enabled(s, a)
    ensures ReturnedAtZero(Next(c, s, a))
  {
    WaitGroupStep(c, s, a);
    match a
    case ThreadStep(i, alt) =>
      SumAtLeast(s.threads, Live, i);
      DoneExactlyOnExit(c, s.g, s.book.retry, s.threads[i], alt);
      CallerUntouched(s.g, s.threads[i], alt);
    case DispStep(alt) => assert DispMove(s.g, alt).caller == s.g.caller;
    case _ =>
  }

  lemma CallerUntouched(g: Shared, t: Thread, alt: bool)
    ensures SharedMove(g, t, alt).caller == g.caller
  {
  }

  lemma {:induction false} ReturnedAtZeroAlong(c: Config, s: State, acts: seq<Action>)
    requires ReturnedAtZero(s) && Executes(c, s, acts)
    ensures ReturnedAtZero(After(c, s, acts))
    decreases |acts|
  {
    if acts != [] {
      ReturnedAtZeroStep(c, s, acts[0]);
      ReturnedAtZeroAlong(c, Next(c, s, acts[0]), acts[1..]);
    }
  }

  /** Once GRPCMain has returned, the dispatcher is gone and the only goroutine that can be left
      is one failover goroutine with nothing but its store to `standbyActive` to do. */
  lemma OnlyTheFlagIsLeft(c: Config, s: State, i: nat)
    requires Reachable(c, s) && s.g.caller == CReturned
    ensures s.wg == 0 && s.g.disp == DGone
    ensures i < |s.threads| ==> s.threads[i].Gone? || (s.threads[i].FStore? && c.standbyExists && s.g.active)
  {
    var acts :| Executes(c, Init(), acts) && After(c, Init(), acts) == s;
    ReturnedAtZeroAlong(c, Init(), acts);
    WaitGroupCountsLive(c, s, true);
    InvReachable(c, s);
    assert i < |s.threads| ==> ThreadOk(c, s.g, s.threads[i]);
  }

  // ---------------------------------------------------------------- and it can be left

  /** After Stop, a step of anything but goroutine `f`, which has only its store to do. */
  lemma OtherStep(c: Config, s: State, f: nat) returns (a: Action)
    requires Reachable(c, s) && s.g.root && f < |s.threads| && s.threads[f].FStore? && s.g.caller != CReturned
    ensures Own(a) && Enabled(s, a) && (a.ThreadStep? ==> a.i != f)
  {
    if s.g.disp != DGone {
      a := DispStep(false);
    } else if i: nat :| i < |s.threads| && i != f && !s.threads[i].Gone? {
      a := ThreadStep(i, EnabledThread(s.g, s.threads[i], true));
    } else {
      WaitGroupCountsLive(c, s, true);
      SumZero(s.threads, Live);
      a := CallerStep(false);
    }
  }

  lemma StepKeepsThread(c: Config, s: State, a: Action, f: nat)
    requires Enabled(s, a) && f < |s.threads| && (a.ThreadStep? ==> a.i != f)
    ensures f < |Next(c, s, a).threads| && Next(c, s, a).threads[f] == s.threads[f]
  {
  }

  /** Everything else can finish first. */
  lemma {:induction false} OthersFinish(c: Config, s: State, f: nat) returns (t: State)
    requires Reachable(c, s) && s.g.root && f < |s.threads| && s.threads[f].FStore?
    ensures Reachable(c, t) && t.g.caller == CReturned && f < |t.threads| && t.threads[f].FStore?
    decreases Work(s)
  {
    t := s;
    if s.g.caller != CReturned {
      var a := OtherStep(c, s, f);
      ReachableStep(c, s, a);
      EveryStepDecreasesWork(c, s, a);
      StepKeepsThread(c, s, a, f);
      t := OthersFinish(c, Next(c, s, a), f);
    }
  }

  /** With a standby, for every retry budget, a run ends with GRPCMain returned while a failover
      goroutine still owes its store. */
  lemma ReturnsBeforeTheFlag(c: Config) returns (t: State, f: nat)
    requires c.standbyExists
    ensures Reachable(c, t) && t.g.caller == CReturned && t.g.active && f < |t.threads| && t.threads[f].FStore?
  {
    t := FirstSession(c);
    f := |t.threads| - 3;
    assert t.threads[f] == t.threads[|t.threads| - 3..][0];
    ReachableStep(c, t, StopCalled);
    t := Next(c, t, StopCalled);
    t := Go(c, t, f, true);
    t := Go(c, t, f, true);
    t := OthersFinish(c, t, f);
    OnlyTheFlagIsLeft(c, t, f);
  }

  /** "Once GRPCMain has returned, every goroutine of the streamer is gone" holds for every run
      exactly when no standby server is configured. */
  lemma AllGoneOnReturnIffNoStandby(c: Config)
    ensures (forall s :: Reachable(c, s) && s.g.caller == CReturned ==>
               forall i :: 0 <= i < |s.threads| ==> s.threads[i].Gone?)
            <==> !c.standbyExists
  {
    if c.standbyExists {
      var t, f := ReturnsBeforeTheFlag(c);
      assert !t.threads[f].Gone?;
    } else {
      forall s, i | Reachable(c, s) && s.g.caller == CReturned && 0 <= i < |s.threads| ensures s.threads[i].Gone? {
        OnlyTheFlagIsLeft(c, s, i);
      }
    }
  }
}
