/** Shutdown of the failover machine: the wait group counts exactly the live
    goroutines, and once Stop was called everything winds down. */
module FailoverShutdown {
  import opened Base
  import opened FailoverModel

  // ---------------------------------------------------------------- wait group

  /** The goroutine has not called `wg.Done`. The failover goroutine calls it
      before it clears `standbyActive`. */
  function Live(t: Thread): nat {
    if t.Gone? || t.FStore? then 0 else 1
  }

  ghost predicate WaitGroupExact(s: State) {
    s.wg == Sum(s.threads, Live) + if s.g.disp == DGone then 0 else 1
  }

  lemma WaitGroupStep(c: Config, s: State, a: Action)
    requires WaitGroupExact(s) && Enabled(s, a)
    ensures WaitGroupExact(Next(c, s, a))
  {
    match a
    case ThreadStep(i, alt) => WaitGroupThread(c, s, i, alt);
    case DispStep(alt) => WaitGroupDisp(c, s, alt);
    case CallerStep(alt) => assert CallerMove(s.g, alt).disp == s.g.disp;
    case _ =>
  }

  lemma WaitGroupThread(c: Config, s: State, i: nat, alt: bool)
    requires WaitGroupExact(s) && Enabled(s, ThreadStep(i, alt))
    ensures WaitGroupExact(Next(c, s, ThreadStep(i, alt)))
  {
    SumUpdate(s.threads, Live, i, ThreadMove(c, s.g, s.book.retry, s.threads[i], alt));
    DoneExactlyOnExit(c, s.g, s.book.retry, s.threads[i], alt);
  }

  lemma WaitGroupDisp(c: Config, s: State, alt: bool)
    requires WaitGroupExact(s) && Enabled(s, DispStep(alt))
    ensures WaitGroupExact(Next(c, s, DispStep(alt)))
  {
    SpawnOrLeave(s.g, alt);
    if Spawned(s.g) != [] {
      SumAppend(s.threads, Live, Spawned(s.g)[0]);
    } else {
      assert s.threads + Spawned(s.g) == s.threads;
    }
  }

  /** A dispatcher step spawns one live goroutine, or ends the dispatcher, or neither. */
  lemma SpawnOrLeave(g: Shared, alt: bool)
    requires EnabledDisp(g, alt)
    ensures g.disp != DGone && (DispMove(g, alt).disp == DGone <==> g.disp == DReturn)
    ensures Spawned(g) == [] || (g.disp != DReturn && Spawned(g) == [Spawned(g)[0]] && Live(Spawned(g)[0]) == 1)
  {
  }

  lemma DoneExactlyOnExit(c: Config, g: Shared, retry: nat, t: Thread, alt: bool)
    requires EnabledThread(g, t, alt)
    ensures Live(ThreadMove(c, g, retry, t, alt)) == Live(t) - if CallsDone(t) then 1 else 0
    ensures SharedMove(g, t, alt).disp == g.disp
  {
  }

  lemma {:induction false} WaitGroupAlong(c: Config, s: State, acts: seq<Action>)
    requires WaitGroupExact(s) && Executes(c, s, acts)
    ensures WaitGroupExact(After(c, s, acts))
    decreases |acts|
  {
    if acts != [] {
      WaitGroupStep(c, s, acts[0]);
      WaitGroupAlong(c, Next(c, s, acts[0]), acts[1..]);
    }
  }

  /** In every reachable state the wait group counts the dispatcher and the goroutines
      that have not finished; every spawn happens while the dispatcher's own unit is
      held; so GRPCMain's Wait can return only when all of them are done, and no
      goroutine is spawned afterwards. */
  lemma WaitGroupCountsLive(c: Config, s: State, alt: bool)
    requires Reachable(c, s)
    ensures s.wg == Sum(s.threads, Live) + if s.g.disp == DGone then 0 else 1
    ensures Enabled(s, DispStep(alt)) && Spawned(s.g) != [] ==> s.wg >= 1 && s.g.disp != DGone
    ensures s.wg == 0 ==>
              && s.g.disp == DGone
              && !Enabled(s, DispStep(alt))
              && forall i :: 0 <= i < |s.threads| ==> s.threads[i].Gone? || s.threads[i].FStore?
  {
    var acts :| Executes(c, Init(), acts) && After(c, Init(), acts) == s;
    WaitGroupAlong(c, Init(), acts);
    forall i | 0 <= i < |s.threads| && s.wg == 0 ensures s.threads[i].Gone? || s.threads[i].FStore? {
      SumAtLeast(s.threads, Live, i);
    }
  }

  // ---------------------------------------------------------------- termination

  /** The work a message in the channel can still cause after Stop. */
  function MsgWork(m: Msg): nat {
    match m
    case Stop => 1
    case Main => 16
    case RestartMain => 24
    case TryFallback => 38
    case Failover => 60
  }

  function ThreadWork(t: Thread): nat {
    match t
    case Gone => 0
    case MRun => 6
    case MEnded(_) => 5
    case MCount(_) => 67
    case MBudget => 66
    case MBackoff => 20
    case MChoose => 64
    case MSend(m) => MsgWork(m) + 2
    case MExit => 1
    case FTop(_, _) => 3
    case FEnter(_, _) => 6
    case FStream(_, _, _) => 5
    case FAfter(_, _, _) => 4
    case FBudget(_, _) => 6
    case FSleep(_, _, _, _) => 5
    case FDone(_) => 2
    case FStore(_) => 1
    case BLoad(_) => 5
    case BWait(_, _) => 4
    case BKill(_, _) => 3
    case BCancel(_, _) => 2
    case BExit => 1
    case RWait(_) => 20
    case RSend => 18
    case RExit => 1
  }

  function DispWork(d: Dispatcher): nat {
    match d
    case DSelect => 5
    case DCancelOld => 60
    case DNewSession => 59
    case DStoreActive => 58
    case DSpawnFailover => 57
    case DSpawnFallback => 40
    case DSpawnRestart => 26
    case DSpawnMain => 12
    case DSend(m) => MsgWork(m) + 6
    case DStopCancel => 3
    case DReturn => 2
    case DGone => 0
  }

  function CallerWork(k: Caller): nat {
    match k
    case CSendMain => 24
    case CAwaitRoot => 6
    case CSendStop => 5
    case CKill => 2
    case CWait => 1
    case CReturned => 0
  }

  function SlotWork(m: Option<Msg>): nat {
    if m.None? then 0 else MsgWork(m.value)
  }

  /** A bound on the steps the streamer can still take after Stop. */
  ghost function Work(s: State): nat {
    Sum(s.threads, ThreadWork) + DispWork(s.g.disp) + CallerWork(s.g.caller) + SlotWork(s.g.slot)
  }

  /** Steps of the streamer, as opposed to its environment. */
  predicate Own(a: Action) {
    a.CallerStep? || a.DispStep? || a.ThreadStep?
  }

  lemma GoroutineWorkDrops(c: Config, g: Shared, retry: nat, t: Thread, alt: bool)
    requires EnabledThread(g, t, alt) && g.root
    ensures ThreadWork(ThreadMove(c, g, retry, t, alt)) + SlotWork(SharedMove(g, t, alt).slot)
            < ThreadWork(t) + SlotWork(g.slot)
    ensures SharedMove(g, t, alt).disp == g.disp && SharedMove(g, t, alt).caller == g.caller
  {
  }

  lemma DispatcherWorkDrops(g: Shared, alt: bool)
    requires EnabledDisp(g, alt) && g.root
    ensures |Spawned(g)| <= 1
    ensures DispWork(DispMove(g, alt).disp) + SlotWork(DispMove(g, alt).slot)
            + (if Spawned(g) == [] then 0 else ThreadWork(Spawned(g)[0]))
            < DispWork(g.disp) + SlotWork(g.slot)
    ensures DispMove(g, alt).caller == g.caller
  {
  }

  /** After Stop every step of the streamer strictly decreases the measure, and
      messages arriving from the network leave it unchanged. */
  lemma EveryStepDecreasesWork(c: Config, s: State, a: Action)
    requires s.g.root && Enabled(s, a)
    ensures Own(a) ==> Work(Next(c, s, a)) < Work(s)
    ensures !Own(a) ==> Work(Next(c, s, a)) == Work(s)
    ensures Next(c, s, a).g.root
  {
    match a
    case ThreadStep(i, alt) =>
      GoroutineWorkDrops(c, s.g, s.book.retry, s.threads[i], alt);
      SumUpdate(s.threads, ThreadWork, i, ThreadMove(c, s.g, s.book.retry, s.threads[i], alt));
    case DispStep(alt) =>
      DispatcherWorkDrops(s.g, alt);
      if Spawned(s.g) == [] {
        assert s.threads + Spawned(s.g) == s.threads;
      } else {
        assert Spawned(s.g) == [Spawned(s.g)[0]];
        SumAppend(s.threads, ThreadWork, Spawned(s.g)[0]);
      }
    case _ =>
  }

  // ---------------------------------------------------------------- progress

  /** Nothing of the streamer is left running. */
  ghost predicate Finished(s: State) {
    && s.g.disp == DGone
    && s.g.caller == CReturned
    && forall i :: 0 <= i < |s.threads| ==> s.threads[i].Gone?
  }

  /** After Stop, a reachable state in which anything still runs has an enabled step, and one that
      waits for no timer, no message and no room in the channel. */
  lemma NotStuck(c: Config, s: State) returns (a: Action)
    requires Reachable(c, s) && s.g.root && !Finished(s)
    ensures Own(a) && Enabled(s, a) && !a.alt
  {
    if s.g.disp != DGone {
      a := DispStep(false);
    } else if i: nat :| i < |s.threads| && !s.threads[i].Gone? {
      a := ThreadStep(i, false);
    } else {
      WaitGroupCountsLive(c, s, true);
      SumZero(s.threads, Live);
      a := CallerStep(false);
    }
  }

  function OwnSteps(acts: seq<Action>): nat {
    if acts == [] then 0 else (if Own(acts[0]) then 1 else 0) + OwnSteps(acts[1..])
  }

  lemma {:induction false} WorkBoundsSteps(c: Config, s: State, acts: seq<Action>)
    requires s.g.root && Executes(c, s, acts)
    ensures After(c, s, acts).g.root && OwnSteps(acts) + Work(After(c, s, acts)) <= Work(s)
    decreases |acts|
  {
    if acts != [] {
      EveryStepDecreasesWork(c, s, acts[0]);
      WorkBoundsSteps(c, Next(c, s, acts[0]), acts[1..]);
    }
  }

  /** Shutdown terminates: however the steps are scheduled after Stop, the streamer takes
      at most `Work(s)` of them, and when none is left the dispatcher, every goroutine
      and GRPCMain have finished. */
  lemma ShutdownTerminates(c: Config, s: State, acts: seq<Action>)
    requires Reachable(c, s) && s.g.root && Executes(c, s, acts)
    ensures OwnSteps(acts) <= Work(s)
    ensures (forall a :: Own(a) ==> !Enabled(After(c, s, acts), a)) ==> Finished(After(c, s, acts))
  {
    WorkBoundsSteps(c, s, acts);
    var pre :| Executes(c, Init(), pre) && After(c, Init(), pre) == s;
    ExecutesConcat(c, Init(), pre, acts);
    var t := After(c, s, acts);
    assert Reachable(c, t);
    if !Finished(t) {
      var a := NotStuck(c, t);
    }
  }
}
