/** Safety of the failover machine over every run: who holds the single driver
    token, who owns the standby, and which session a goroutine may touch. */
module FailoverSafety {
  import opened Base
  import opened FailoverModel

  // ---------------------------------------------------------------- roles

  /** A main goroutine up to the hand-over of its next state, or a restart goroutine. */
  predicate Drives(t: Thread) {
    match t
    case MRun | MEnded(_) | MCount(_) | MBudget | MBackoff | MChoose => true
    case MSend(m) => m != Stop
    case RWait(_) | RSend => true
    case _ => false
  }

  /** The dispatcher is carrying out a state other than STOP. */
  predicate Carries(d: Dispatcher) {
    match d
    case DSelect | DStopCancel | DReturn | DGone => false
    case DSend(m) => m != Stop
    case _ => true
  }

  predicate SlotDrives(g: Shared) {
    g.slot.Some? && g.slot.value != Stop
  }

  /** No token outside the goroutines. */
  predicate Quiet(g: Shared) {
    !SlotDrives(g) && !Carries(g.disp) && g.caller != CSendMain
  }

  /** A failover goroutine that has not yet cleared `standbyActive`. */
  predicate IsFailover(t: Thread) {
    t.FTop? || t.FEnter? || t.FStream? || t.FAfter? || t.FBudget? || t.FSleep? || t.FDone? || t.FStore?
  }

  /** Its next step reads the mutable field `sessionCtx`. */
  predicate ReadsSession(t: Thread) {
    t.FTop? || t.FEnter? || t.FAfter? || t.FBudget?
  }

  /** It has seen its session alive and not yet seen it cancelled. */
  predicate FOpen(t: Thread) {
    t.FEnter? || t.FStream? || t.FAfter? || t.FBudget? || t.FSleep?
  }

  /** A fallback goroutine that may still cancel its session. */
  predicate Armed(t: Thread) {
    t.BLoad? || t.BWait? || t.BKill? || t.BCancel?
  }

  /** A FAILOVER state exists and the flag it will raise has not been raised. */
  predicate FailoverPending(g: Shared) {
    g.slot == Some(Failover) || g.disp == DCancelOld || g.disp == DNewSession || g.disp == DStoreActive
  }

  /** A TRY_FALLBACK state exists for the current session. */
  predicate FallbackPending(g: Shared) {
    g.slot == Some(TryFallback) || g.disp == DSpawnFailover || g.disp == DSend(TryFallback) || g.disp == DSpawnFallback
  }

  // ---------------------------------------------------------------- the invariant

  /** Facts about the shared state alone. */
  predicate SharedOk(c: Config, g: Shared) {
    // tokens outside goroutines exclude each other
    && (SlotDrives(g) ==> !Carries(g.disp) && g.caller != CSendMain)
    && (Carries(g.disp) ==> g.caller != CSendMain)
    // STOP and the end of the dispatcher come only from the root context
    && (g.slot == Some(Stop) || g.disp == DStopCancel || g.disp == DReturn || g.disp == DGone ==> g.root)
    && (g.caller != CSendMain && g.caller != CAwaitRoot ==> g.root)
    && (g.disp.DSend? ==> g.disp.m == TryFallback || g.disp.m == RestartMain)
    // sessions
    && (FailoverPending(g) ==> !g.active && c.standbyExists)
    && (FallbackPending(g) ==> c.standbyExists)
    && (g.disp == DSpawnFailover ==> g.active && g.standbyCancel.None?)
    && (!g.root && g.disp == DStoreActive ==> g.sess !in g.cancelled)
    && (!g.root && FallbackPending(g) ==> g.active && g.sess !in g.cancelled)
    && (forall k :: k in g.cancelled ==> k <= g.sess)
    && (forall k: nat :: k < g.sess ==> k in g.cancelled)
    && (g.disp == DNewSession || g.disp == DReturn || g.disp == DGone ==> g.sess in g.cancelled)
    && (!g.root && g.active && g.sess in g.cancelled ==> g.sess in g.fired)
    && (!g.root && !c.standbyExists ==> g.cancelled == {})
    && (forall k :: k in g.fired ==> g.fired[k] < g.recvGen)
    && (forall k :: 0 <= k < |g.kills| && g.kills[k].victim.Some? ==> g.kills[k].victim.value == g.kills[k].killer)
    && (g.standbyCancel.Some? ==> g.standbyCancel.value == g.sess && g.active && (g.root ==> g.sess == g.stopSess))
    && (g.root ==> g.stopSess <= g.sess)
  }

  /** Facts tying one goroutine to the shared state. */
  predicate ThreadOk(c: Config, g: Shared, t: Thread) {
    && (Drives(t) ==> Quiet(g))
    && (t == MSend(Stop) ==> g.root)
    && (t == MSend(Failover) ==> !g.active && c.standbyExists)
    && (t.MSend? ==> t.m != TryFallback)
    && (IsFailover(t) ==> g.active && t.own == g.sess && c.standbyExists && g.disp != DSpawnFailover)
    && (FOpen(t) && g.root ==> g.sess == g.stopSess)
    && (t.FStream? ==> t.ctx == g.sess && g.standbyCancel == Some(g.sess))
    && (t.FSleep? ==> t.ctx == g.sess)
    && (IsFailover(t) && !t.FStream? ==> g.standbyCancel.None?)
    && (t.FDone? || t.FStore? ==> Cancelled(g, t.own))
    && (Armed(t) ==> t.on <= g.sess && c.standbyExists)
    && (Armed(t) && (g.root ==> g.sess == g.stopSess) ==> t.on == g.sess)
    && (t.BWait? ==> t.gen <= g.recvGen)
    && (t.BKill? || t.BCancel? ==> t.gen < g.recvGen)
    && (Armed(t) && !g.root ==> g.active && g.sess !in g.cancelled && !FallbackPending(g))
  }

  /** Two goroutines that cannot coexist. */
  predicate Clash(g: Shared, t: Thread, u: Thread) {
    (Drives(t) && Drives(u)) || (IsFailover(t) && IsFailover(u)) || (!g.root && Armed(t) && Armed(u))
  }

  ghost predicate Inv(c: Config, s: State) {
    && SharedOk(c, s.g)
    && (forall i :: 0 <= i < |s.threads| ==> ThreadOk(c, s.g, s.threads[i]))
    && (forall i, j :: 0 <= i < j < |s.threads| ==> !Clash(s.g, s.threads[i], s.threads[j]))
  }

  // ---------------------------------------------------------------- goroutine steps

  predicate IsMain(t: Thread) {
    t.MRun? || t.MEnded? || t.MCount? || t.MBudget? || t.MBackoff? || t.MChoose? || t.MExit?
  }

  predicate IsRestart(t: Thread) {
    t.RWait? || t.RSend? || t.RExit? || t.BExit?
  }

  lemma MainKeepsSelf(c: Config, g: Shared, retry: nat, t: Thread, alt: bool)
    requires SharedOk(c, g) && ThreadOk(c, g, t) && EnabledThread(g, t, alt) && IsMain(t)
    ensures ThreadOk(c, SharedMove(g, t, alt), ThreadMove(c, g, retry, t, alt))
  {
  }

  lemma SendKeepsShared(c: Config, g: Shared, t: Thread, alt: bool)
    requires SharedOk(c, g) && ThreadOk(c, g, t) && EnabledThread(g, t, alt) && t.MSend?
    ensures SharedOk(c, SharedMove(g, t, alt))
  {
  }

  lemma SendKeepsSelf(c: Config, g: Shared, retry: nat, t: Thread, alt: bool)
    requires SharedOk(c, g) && ThreadOk(c, g, t) && EnabledThread(g, t, alt) && t.MSend?
    ensures ThreadOk(c, SharedMove(g, t, alt), ThreadMove(c, g, retry, t, alt))
  {
  }

  lemma SendKeepsOther(c: Config, g: Shared, t: Thread, alt: bool, u: Thread)
    requires SharedOk(c, g) && ThreadOk(c, g, t) && EnabledThread(g, t, alt) && t.MSend?
    requires ThreadOk(c, g, u) && !Clash(g, t, u)
    ensures ThreadOk(c, SharedMove(g, t, alt), u)
  {
  }

  lemma RestartKeepsShared(c: Config, g: Shared, t: Thread, alt: bool)
    requires SharedOk(c, g) && ThreadOk(c, g, t) && EnabledThread(g, t, alt) && IsRestart(t)
    ensures SharedOk(c, SharedMove(g, t, alt))
  {
  }

  lemma RestartKeepsSelf(c: Config, g: Shared, retry: nat, t: Thread, alt: bool)
    requires SharedOk(c, g) && ThreadOk(c, g, t) && EnabledThread(g, t, alt) && IsRestart(t)
    ensures ThreadOk(c, SharedMove(g, t, alt), ThreadMove(c, g, retry, t, alt))
  {
  }

  lemma RestartKeepsOther(c: Config, g: Shared, t: Thread, alt: bool, u: Thread)
    requires SharedOk(c, g) && ThreadOk(c, g, t) && EnabledThread(g, t, alt) && IsRestart(t)
    requires ThreadOk(c, g, u) && !Clash(g, t, u)
    ensures ThreadOk(c, SharedMove(g, t, alt), u)
  {
  }

  lemma FailoverKeepsShared(c: Config, g: Shared, t: Thread, alt: bool)
    requires SharedOk(c, g) && ThreadOk(c, g, t) && EnabledThread(g, t, alt) && IsFailover(t)
    ensures SharedOk(c, SharedMove(g, t, alt))
  {
  }

  lemma FailoverKeepsSelf(c: Config, g: Shared, retry: nat, t: Thread, alt: bool)
    requires SharedOk(c, g) && ThreadOk(c, g, t) && EnabledThread(g, t, alt) && IsFailover(t)
    ensures ThreadOk(c, SharedMove(g, t, alt), ThreadMove(c, g, retry, t, alt))
  {
  }

  lemma FailoverKeepsOther(c: Config, g: Shared, t: Thread, alt: bool, u: Thread)
    requires SharedOk(c, g) && ThreadOk(c, g, t) && EnabledThread(g, t, alt) && IsFailover(t)
    requires ThreadOk(c, g, u) && !Clash(g, t, u)
    ensures ThreadOk(c, SharedMove(g, t, alt), u)
  {
  }

  lemma FallbackKeepsShared(c: Config, g: Shared, t: Thread, alt: bool)
    requires SharedOk(c, g) && ThreadOk(c, g, t) && EnabledThread(g, t, alt) && Armed(t)
    ensures SharedOk(c, SharedMove(g, t, alt))
  {
  }

  lemma FallbackKeepsSelf(c: Config, g: Shared, retry: nat, t: Thread, alt: bool)
    requires SharedOk(c, g) && ThreadOk(c, g, t) && EnabledThread(g, t, alt) && Armed(t)
    ensures ThreadOk(c, SharedMove(g, t, alt), ThreadMove(c, g, retry, t, alt))
  {
  }

  lemma FallbackKeepsOther(c: Config, g: Shared, t: Thread, alt: bool, u: Thread)
    requires SharedOk(c, g) && ThreadOk(c, g, t) && EnabledThread(g, t, alt) && Armed(t)
    requires ThreadOk(c, g, u) && !Clash(g, t, u)
    ensures ThreadOk(c, SharedMove(g, t, alt), u)
  {
  }

  /** A goroutine step creates no clash. */
  lemma NoNewClash(c: Config, g: Shared, retry: nat, t: Thread, alt: bool, u: Thread)
    requires !Clash(g, t, u) && EnabledThread(g, t, alt)
    ensures !Clash(SharedMove(g, t, alt), ThreadMove(c, g, retry, t, alt), u)
    ensures !Clash(SharedMove(g, t, alt), u, ThreadMove(c, g, retry, t, alt))
  {
  }

  // ---------------------------------------------------------------- dispatcher and outer steps

  /** The dispatcher cancels or replaces the session. */
  predicate ChangesSession(d: Dispatcher) {
    d.DCancelOld? || d.DNewSession? || d.DStoreActive? || d.DStopCancel?
  }

  lemma SelectStepKeepsShared(c: Config, g: Shared, alt: bool)
    requires SharedOk(c, g) && EnabledDisp(g, alt) && g.disp.DSelect?
    ensures SharedOk(c, DispMove(g, alt))
  {
  }

  lemma SelectStepKeepsOther(c: Config, g: Shared, alt: bool, u: Thread)
    requires SharedOk(c, g) && EnabledDisp(g, alt) && ThreadOk(c, g, u) && g.disp.DSelect?
    ensures ThreadOk(c, DispMove(g, alt), u)
  {
  }

  lemma SendStepKeepsShared(c: Config, g: Shared, alt: bool)
    requires SharedOk(c, g) && EnabledDisp(g, alt) && g.disp.DSend?
    ensures SharedOk(c, DispMove(g, alt))
  {
  }

  lemma SendStepKeepsOther(c: Config, g: Shared, alt: bool, u: Thread)
    requires SharedOk(c, g) && EnabledDisp(g, alt) && ThreadOk(c, g, u) && g.disp.DSend?
    ensures ThreadOk(c, DispMove(g, alt), u)
  {
  }

  lemma SessionStepKeepsShared(c: Config, g: Shared, alt: bool)
    requires SharedOk(c, g) && EnabledDisp(g, alt) && ChangesSession(g.disp)
    ensures SharedOk(c, DispMove(g, alt))
  {
  }

  lemma SessionStepKeepsOther(c: Config, g: Shared, alt: bool, u: Thread)
    requires SharedOk(c, g) && EnabledDisp(g, alt) && ThreadOk(c, g, u) && ChangesSession(g.disp)
    ensures ThreadOk(c, DispMove(g, alt), u)
  {
  }

  lemma SpawnStepKeepsShared(c: Config, g: Shared, alt: bool)
    requires SharedOk(c, g) && EnabledDisp(g, alt) && !g.disp.DSelect? && !g.disp.DSend? && !ChangesSession(g.disp)
    ensures SharedOk(c, DispMove(g, alt))
  {
  }

  lemma SpawnStepKeepsOther(c: Config, g: Shared, alt: bool, u: Thread)
    requires SharedOk(c, g) && EnabledDisp(g, alt) && ThreadOk(c, g, u)
    requires !g.disp.DSelect? && !g.disp.DSend? && !ChangesSession(g.disp)
    ensures ThreadOk(c, DispMove(g, alt), u)
  {
  }

  lemma DispKeepsShared(c: Config, g: Shared, alt: bool)
    requires SharedOk(c, g) && EnabledDisp(g, alt)
    ensures SharedOk(c, DispMove(g, alt))
  {
    if g.disp.DSelect? {
      SelectStepKeepsShared(c, g, alt);
    } else if g.disp.DSend? {
      SendStepKeepsShared(c, g, alt);
    } else if ChangesSession(g.disp) {
      SessionStepKeepsShared(c, g, alt);
    } else {
      SpawnStepKeepsShared(c, g, alt);
    }
  }

  lemma DispKeepsOther(c: Config, g: Shared, alt: bool, u: Thread)
    requires SharedOk(c, g) && EnabledDisp(g, alt) && ThreadOk(c, g, u)
    ensures ThreadOk(c, DispMove(g, alt), u)
  {
    if g.disp.DSelect? {
      SelectStepKeepsOther(c, g, alt, u);
    } else if g.disp.DSend? {
      SendStepKeepsOther(c, g, alt, u);
    } else if ChangesSession(g.disp) {
      SessionStepKeepsOther(c, g, alt, u);
    } else {
      SpawnStepKeepsOther(c, g, alt, u);
    }
  }

  lemma SpawnedOk(c: Config, g: Shared, alt: bool)
    requires SharedOk(c, g) && EnabledDisp(g, alt) && Spawned(g) != []
    ensures |Spawned(g)| == 1 && ThreadOk(c, DispMove(g, alt), Spawned(g)[0])
  {
  }

  lemma SpawnedClashesWithNone(c: Config, g: Shared, alt: bool, u: Thread)
    requires SharedOk(c, g) && EnabledDisp(g, alt) && ThreadOk(c, g, u) && Spawned(g) != []
    ensures !Clash(DispMove(g, alt), u, Spawned(g)[0])
  {
  }

  lemma StopKeeps(c: Config, g: Shared, u: Thread)
    requires BothOk(c, g, u) && !g.root
    ensures BothOk(c, g.(root := true, stopSess := g.sess), u)
  {
  }

  lemma ReceiveKeeps(c: Config, g: Shared, u: Thread)
    requires BothOk(c, g, u)
    ensures BothOk(c, g.(recvGen := g.recvGen + 1), u)
  {
  }

  lemma CallerKeepsShared(c: Config, g: Shared, wg: int, alt: bool)
    requires SharedOk(c, g) && EnabledCaller(g, wg, alt)
    ensures SharedOk(c, CallerMove(g, alt))
  {
    var g' := CallerMove(g, alt);
    assert g' == g.(slot := g'.slot, caller := g'.caller);
    assert g'.slot == g.slot || g'.slot == Some(Stop) || g'.slot == Some(Main);
  }

  /** Nothing but the slot and GRPCMain's own program point changes, and it puts a driving
      state into the slot only while it holds the token itself. */
  lemma CallerKeepsOther(c: Config, g: Shared, wg: int, alt: bool, u: Thread)
    requires SharedOk(c, g) && ThreadOk(c, g, u) && EnabledCaller(g, wg, alt)
    ensures ThreadOk(c, CallerMove(g, alt), u)
  {
    var g' := CallerMove(g, alt);
    assert g' == g.(slot := g'.slot, caller := g'.caller);
    assert Quiet(g) ==> Quiet(g');
    assert FallbackPending(g') ==> FallbackPending(g);
  }

  lemma CallerKeeps(c: Config, g: Shared, wg: int, alt: bool, u: Thread)
    requires EnabledCaller(g, wg, alt) && BothOk(c, g, u)
    ensures BothOk(c, CallerMove(g, alt), u)
  {
    CallerKeepsShared(c, g, wg, alt);
    CallerKeepsOther(c, g, wg, alt, u);
  }

  predicate BothOk(c: Config, g: Shared, u: Thread) {
    SharedOk(c, g) && ThreadOk(c, g, u)
  }

  lemma OuterKeeps(c: Config, s: State, a: Action, u: Thread)
    requires Enabled(s, a) && !a.DispStep? && !a.ThreadStep? && BothOk(c, s.g, u)
    ensures BothOk(c, Next(c, s, a).g, u)
  {
    match a
    case StopCalled => StopKeeps(c, s.g, u);
    case MainReceives => ReceiveKeeps(c, s.g, u);
    case CallerStep(alt) => CallerKeeps(c, s.g, s.wg, alt, u);
  }

  // ---------------------------------------------------------------- assembly

  lemma ThreadKeepsShared(c: Config, g: Shared, t: Thread, alt: bool)
    requires SharedOk(c, g) && ThreadOk(c, g, t) && EnabledThread(g, t, alt)
    ensures SharedOk(c, SharedMove(g, t, alt))
  {
    if IsFailover(t) {
      FailoverKeepsShared(c, g, t, alt);
    } else if Armed(t) {
      FallbackKeepsShared(c, g, t, alt);
    } else if t.MSend? {
      SendKeepsShared(c, g, t, alt);
    } else if IsRestart(t) {
      RestartKeepsShared(c, g, t, alt);
    }
  }

  lemma ThreadKeepsSelf(c: Config, g: Shared, retry: nat, t: Thread, alt: bool)
    requires SharedOk(c, g) && ThreadOk(c, g, t) && EnabledThread(g, t, alt)
    ensures ThreadOk(c, SharedMove(g, t, alt), ThreadMove(c, g, retry, t, alt))
  {
    if IsFailover(t) {
      FailoverKeepsSelf(c, g, retry, t, alt);
    } else if Armed(t) {
      FallbackKeepsSelf(c, g, retry, t, alt);
    } else if t.MSend? {
      SendKeepsSelf(c, g, retry, t, alt);
    } else if IsRestart(t) {
      RestartKeepsSelf(c, g, retry, t, alt);
    } else {
      MainKeepsSelf(c, g, retry, t, alt);
    }
  }

  lemma ThreadKeepsOther(c: Config, g: Shared, t: Thread, alt: bool, u: Thread)
    requires SharedOk(c, g) && ThreadOk(c, g, t) && EnabledThread(g, t, alt)
    requires ThreadOk(c, g, u) && !Clash(g, t, u)
    ensures ThreadOk(c, SharedMove(g, t, alt), u)
  {
    if IsFailover(t) {
      FailoverKeepsOther(c, g, t, alt, u);
    } else if Armed(t) {
      FallbackKeepsOther(c, g, t, alt, u);
    } else if t.MSend? {
      SendKeepsOther(c, g, t, alt, u);
    } else if IsRestart(t) {
      RestartKeepsOther(c, g, t, alt, u);
    }
  }

  lemma InvThreadStep(c: Config, s: State, i: nat, alt: bool)
    requires Inv(c, s) && Enabled(s, ThreadStep(i, alt))
    ensures Inv(c, Next(c, s, ThreadStep(i, alt)))
  {
    var t := s.threads[i];
    var s' := Next(c, s, ThreadStep(i, alt));
    ThreadKeepsShared(c, s.g, t, alt);
    ThreadKeepsSelf(c, s.g, s.book.retry, t, alt);
    forall k | 0 <= k < |s.threads| && k != i
      ensures ThreadOk(c, s'.g, s.threads[k])
      ensures !Clash(s'.g, s'.threads[i], s.threads[k]) && !Clash(s'.g, s.threads[k], s'.threads[i])
    {
      ClashSymmetric(s.g, s.threads[k], t);
      ThreadKeepsOther(c, s.g, t, alt, s.threads[k]);
      NoNewClash(c, s.g, s.book.retry, t, alt, s.threads[k]);
    }
    forall j, k | 0 <= j < k < |s.threads| ensures !Clash(s'.g, s'.threads[j], s'.threads[k]) {
      ClashReadsRoot(s.g, s'.g, s.threads[j], s.threads[k]);
    }
  }

  lemma ClashSymmetric(g: Shared, t: Thread, u: Thread)
    ensures Clash(g, t, u) == Clash(g, u, t)
  {
  }

  lemma ClashReadsRoot(g: Shared, g': Shared, t: Thread, u: Thread)
    ensures (g.root ==> g'.root) && !Clash(g, t, u) ==> !Clash(g', t, u)
  {
  }

  lemma InvDispStep(c: Config, s: State, alt: bool)
    requires Inv(c, s) && Enabled(s, DispStep(alt))
    ensures Inv(c, Next(c, s, DispStep(alt)))
  {
    var s' := Next(c, s, DispStep(alt));
    DispKeepsShared(c, s.g, alt);
    forall k | 0 <= k < |s.threads| ensures ThreadOk(c, s'.g, s.threads[k]) {
      DispKeepsOther(c, s.g, alt, s.threads[k]);
    }
    forall j, k | 0 <= j < k < |s.threads| ensures !Clash(s'.g, s.threads[j], s.threads[k]) {
      ClashReadsRoot(s.g, s'.g, s.threads[j], s.threads[k]);
    }
    if Spawned(s.g) != [] {
      SpawnedOk(c, s.g, alt);
      forall k | 0 <= k < |s.threads| ensures !Clash(s'.g, s.threads[k], Spawned(s.g)[0]) {
        SpawnedClashesWithNone(c, s.g, alt, s.threads[k]);
      }
    }
  }

  /** Every step of the machine keeps the invariant. */
  lemma InvStep(c: Config, s: State, a: Action)
    requires Inv(c, s) && Enabled(s, a)
    ensures Inv(c, Next(c, s, a))
  {
    match a
    case ThreadStep(i, alt) => InvThreadStep(c, s, i, alt);
    case DispStep(alt) => InvDispStep(c, s, alt);
    case _ =>
      var s' := Next(c, s, a);
      OuterKeeps(c, s, a, Gone);
      forall k | 0 <= k < |s.threads| ensures ThreadOk(c, s'.g, s.threads[k]) {
        OuterKeeps(c, s, a, s.threads[k]);
      }
      forall j, k | 0 <= j < k < |s.threads| ensures !Clash(s'.g, s.threads[j], s.threads[k]) {
        ClashReadsRoot(s.g, s'.g, s.threads[j], s.threads[k]);
      }
  }

  lemma {:induction false} InvAlong(c: Config, s: State, acts: seq<Action>)
    requires Inv(c, s) && Executes(c, s, acts)
    ensures Inv(c, After(c, s, acts))
    decreases |acts|
  {
    if acts != [] {
      InvStep(c, s, acts[0]);
      InvAlong(c, Next(c, s, acts[0]), acts[1..]);
    }
  }

  lemma InvReachable(c: Config, s: State)
    requires Reachable(c, s)
    ensures Inv(c, s)
  {
    var acts :| Executes(c, Init(), acts) && After(c, Init(), acts) == s;
    InvAlong(c, Init(), acts);
  }
}
