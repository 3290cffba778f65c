/** The reference-counted renewer under every interleaving of subscribe and release. */
module EntryLifecycle {
  import opened Base
  import opened EntryModel
  import opened EntrySystem

  /** The process has run subscribe's section and not yet release's. */
  function Subscription(p: Proc): nat {
    if (p.Sds? && !p.spc.SJoin?) || (p.Https? && !p.hpc.HJoin?) || p.Leaving? then 1 else 0
  }

  /** The renewer context this process runs under or is about to start a renewer with. */
  function RunsUnder(p: Proc): Option<nat> {
    match p
    case Renewer(ctx, _) => Some(ctx)
    case RenewerTimer(ctx) => Some(ctx)
    case Sds(_, _, SSpawn(ctx)) => Some(ctx)
    case Https(HSpawn(ctx)) => Some(ctx)
    case _ => None
  }

  /** Facts about entry and contexts alone. */
  ghost predicate CountOk(e: Entry, x: Contexts) {
    && (e.cancelRenew.Some? <==> e.subscribing > 0)
    && (e.cancelRenew.Some? ==> e.cancelRenew.value < x.made && e.cancelRenew.value !in x.cancelled)
    && (forall k :: k in x.cancelled ==> k < x.made)
  }

  ghost predicate ProcOk(e: Entry, x: Contexts, p: Proc) {
    && (RunsUnder(p).Some? ==> RunsUnder(p).value < x.made)
    && (p.Cancelling? && p.cancel.Some? ==> p.cancel.value < x.made && p.cancel != e.cancelRenew)
  }

  /** Context `k` is current, cancelled, or held by a release about to cancel it. */
  ghost predicate Accounted(s: State, k: nat) {
    || k in s.g.ctxs.cancelled
    || s.g.e.cancelRenew == Some(k)
    || exists i :: 0 <= i < |s.procs| && s.procs[i] == Cancelling(Some(k))
  }

  /** No two processes run under the same renewer context. */
  ghost predicate OwnContexts(procs: seq<Proc>) {
    forall i, j :: 0 <= i < j < |procs| ==> !ShareContext(procs[i], procs[j])
  }

  predicate ShareContext(p: Proc, q: Proc) {
    RunsUnder(p).Some? && RunsUnder(p) == RunsUnder(q)
  }

  ghost predicate Inv(s: State) {
    && CountOk(s.g.e, s.g.ctxs)
    && s.g.e.subscribing == Sum(s.procs, Subscription)
    && (forall i :: 0 <= i < |s.procs| ==> ProcOk(s.g.e, s.g.ctxs, s.procs[i]))
    && (forall k: nat :: k < s.g.ctxs.made ==> Accounted(s, k))
    && OwnContexts(s.procs)
  }

  // ---------------------------------------------------------------- one process acts

  lemma ActorCounts(e: Entry, x: Contexts, p: Proc)
    requires CountOk(e, x) && ProcOk(e, x, p) && e.subscribing >= Subscription(p)
    ensures CountOk(EntryMove(e, x.made, p), CtxMove(x, e, p))
    ensures x.made <= CtxMove(x, e, p).made && x.cancelled <= CtxMove(x, e, p).cancelled
  {
  }

  lemma SubscriptionMove(c: Config, g: Shared, p: Proc, a: Action)
    requires a.ProcStep? && EnabledProc(g, p, a.alt) && g.e.subscribing >= Subscription(p)
    ensures EntryMove(g.e, g.ctxs.made, p).subscribing
            == g.e.subscribing - Subscription(p) + Subscription(ProcMove(c, g, p, a))
    ensures forall k :: 0 <= k < |Spawned(p)| ==> Subscription(Spawned(p)[k]) == 0
  {
  }

  lemma ActorKeepsSelf(c: Config, g: Shared, p: Proc, a: Action)
    requires a.ProcStep? && EnabledProc(g, p, a.alt)
    requires CountOk(g.e, g.ctxs) && ProcOk(g.e, g.ctxs, p) && g.e.subscribing >= Subscription(p)
    ensures var e', x' := EntryMove(g.e, g.ctxs.made, p), CtxMove(g.ctxs, g.e, p);
            && ProcOk(e', x', ProcMove(c, g, p, a))
            && forall k :: 0 <= k < |Spawned(p)| ==> ProcOk(e', x', Spawned(p)[k])
  {
  }

  lemma ActorKeepsOther(e: Entry, x: Contexts, p: Proc, q: Proc)
    requires CountOk(e, x) && ProcOk(e, x, p) && ProcOk(e, x, q)
    ensures ProcOk(EntryMove(e, x.made, p), CtxMove(x, e, p), q)
  {
  }

  /** A step passes on the context it runs under, drops it, or takes the fresh one. */
  lemma RunsUnderMove(c: Config, g: Shared, p: Proc, a: Action)
    requires a.ProcStep? && EnabledProc(g, p, a.alt)
    ensures var r := RunsUnder(ProcMove(c, g, p, a));
            r.None? || (Spawned(p) == [] && r == RunsUnder(p)) || r == Some(g.ctxs.made)
    ensures Spawned(p) != [] ==>
              && |Spawned(p)| == 1 && RunsUnder(Spawned(p)[0]) == RunsUnder(p)
              && RunsUnder(ProcMove(c, g, p, a)).None?
  {
  }

  /** The context the section gives up is held by the process that gives it up. */
  lemma CancelMoves(c: Config, g: Shared, p: Proc, a: Action, k: nat)
    requires a.ProcStep? && CountOk(g.e, g.ctxs) && g.e.subscribing >= Subscription(p)
    ensures g.e.cancelRenew == Some(k) ==>
              EntryMove(g.e, g.ctxs.made, p).cancelRenew == Some(k) || ProcMove(c, g, p, a) == Cancelling(Some(k))
    ensures p == Cancelling(Some(k)) ==> k in CtxMove(g.ctxs, g.e, p).cancelled
    ensures k < CtxMove(g.ctxs, g.e, p).made ==>
              k < g.ctxs.made || EntryMove(g.e, g.ctxs.made, p).cancelRenew == Some(k)
  {
  }

  lemma StillAccounted(c: Config, s: State, a: Action, k: nat)
    requires Inv(s) && Enabled(s, a) && a.ProcStep? && k < Next(c, s, a).g.ctxs.made
    requires s.g.e.subscribing >= Subscription(s.procs[a.i])
    ensures Accounted(Next(c, s, a), k)
  {
    var s' := Next(c, s, a);
    var p := s.procs[a.i];
    CancelMoves(c, s.g, p, a, k);
    assert s'.procs[a.i] == ProcMove(c, s.g, p, a);
    if k < s.g.ctxs.made {
      assert Accounted(s, k);
      if j :| 0 <= j < |s.procs| && s.procs[j] == Cancelling(Some(k)) && j != a.i {
        assert s'.procs[j] == Cancelling(Some(k));
      }
    }
  }

  lemma DistinctContexts(c: Config, s: State, a: Action)
    requires Inv(s) && Enabled(s, a) && a.ProcStep?
    ensures OwnContexts(Next(c, s, a).procs)
  {
    var s' := Next(c, s, a);
    RunsUnderMove(c, s.g, s.procs[a.i], a);
    forall k | 0 <= k < |s.procs| ensures RunsUnder(s.procs[k]) != Some(s.g.ctxs.made) {
      assert ProcOk(s.g.e, s.g.ctxs, s.procs[k]);
    }
  }

  lemma InvProcStep(c: Config, s: State, a: Action)
    requires Inv(s) && Enabled(s, a) && a.ProcStep?
    ensures Inv(Next(c, s, a))
  {
    var s' := Next(c, s, a);
    var p := s.procs[a.i];
    SumAtLeast(s.procs, Subscription, a.i);
    ActorCounts(s.g.e, s.g.ctxs, p);
    ActorKeepsSelf(c, s.g, p, a);
    forall k | 0 <= k < |s'.procs| ensures ProcOk(s'.g.e, s'.g.ctxs, s'.procs[k]) {
      if k < |s.procs| && k != a.i {
        ActorKeepsOther(s.g.e, s.g.ctxs, p, s.procs[k]);
      }
    }
    forall k: nat | k < s'.g.ctxs.made ensures Accounted(s', k) {
      StillAccounted(c, s, a, k);
    }
    DistinctContexts(c, s, a);
    SumsMove(c, s, a);
  }

  lemma SumsMove(c: Config, s: State, a: Action)
    requires Inv(s) && Enabled(s, a) && a.ProcStep? && s.g.e.subscribing >= Subscription(s.procs[a.i])
    ensures Next(c, s, a).g.e.subscribing == Sum(Next(c, s, a).procs, Subscription)
  {
    var p := s.procs[a.i];
    SubscriptionMove(c, s.g, p, a);
    SumUpdate(s.procs, Subscription, a.i, ProcMove(c, s.g, p, a));
    var procs := s.procs[a.i := ProcMove(c, s.g, p, a)];
    if Spawned(p) == [] {
      assert procs + Spawned(p) == procs;
    } else {
      SumAppend(procs, Subscription, Spawned(p)[0]);
    }
  }

  /** What a step outside the processes can do to one of them: it keeps the context it runs under
      or runs under none, and no cancel is added or lost. */
  ghost predicate Undisturbed(p: Proc, p': Proc) {
    && (RunsUnder(p').Some? ==> RunsUnder(p') == RunsUnder(p))
    && (p.Cancelling? || p'.Cancelling? ==> p' == p)
  }

  lemma OuterProc(c: Config, s: State, a: Action, k: nat)
    requires Enabled(s, a) && !a.ProcStep? && k < |Next(c, s, a).procs|
    ensures |s.procs| <= |Next(c, s, a).procs|
    ensures Undisturbed(if k < |s.procs| then s.procs[k] else Gone, Next(c, s, a).procs[k])
  {
    match a
    case Arrive(kind) => assert k >= |s.procs| ==> Next(c, s, a).procs[k] == Arrived(kind);
    case ContextDone(i) => assert Undisturbed(s.procs[i], MarkDone(s.procs[i]));
    case ListenerFails(i) => assert Undisturbed(s.procs[i], Leaving);
    case _ =>
  }

  lemma OuterKeepsProcs(c: Config, s: State, a: Action)
    requires Inv(s) && Enabled(s, a) && !a.ProcStep?
    ensures forall k :: 0 <= k < |Next(c, s, a).procs| ==> ProcOk(s.g.e, s.g.ctxs, Next(c, s, a).procs[k])
    ensures OwnContexts(Next(c, s, a).procs)
  {
    var procs := Next(c, s, a).procs;
    forall k | 0 <= k < |procs| ensures ProcOk(s.g.e, s.g.ctxs, procs[k]) {
      OuterProc(c, s, a, k);
      assert k < |s.procs| ==> ProcOk(s.g.e, s.g.ctxs, s.procs[k]);
    }
    forall i, j | 0 <= i < j < |procs| ensures !ShareContext(procs[i], procs[j]) {
      OuterProc(c, s, a, i);
      OuterProc(c, s, a, j);
      assert j < |s.procs| ==> !ShareContext(s.procs[i], s.procs[j]);
    }
  }

  lemma OuterKeepsAccount(c: Config, s: State, a: Action, k: nat)
    requires Accounted(s, k) && Enabled(s, a) && !a.ProcStep?
    requires Next(c, s, a).g.e == s.g.e && Next(c, s, a).g.ctxs == s.g.ctxs && |s.procs| <= |Next(c, s, a).procs|
    ensures Accounted(Next(c, s, a), k)
  {
    if j :| 0 <= j < |s.procs| && s.procs[j] == Cancelling(Some(k)) {
      OuterProc(c, s, a, j);
      assert Next(c, s, a).procs[j] == Cancelling(Some(k));
    }
  }

  /** Steps outside the processes change no subscription and no context. */
  lemma InvOuterStep(c: Config, s: State, a: Action)
    requires Inv(s) && Enabled(s, a) && !a.ProcStep?
    ensures Inv(Next(c, s, a))
  {
    OuterSums(c, s, a);
    OuterKeepsProcs(c, s, a);
    forall k: nat | k < s.g.ctxs.made ensures Accounted(Next(c, s, a), k) {
      assert Accounted(s, k);
      OuterKeepsAccount(c, s, a, k);
    }
  }

  lemma OuterSums(c: Config, s: State, a: Action)
    requires Enabled(s, a) && !a.ProcStep?
    ensures Sum(Next(c, s, a).procs, Subscription) == Sum(s.procs, Subscription)
    ensures Next(c, s, a).g.e == s.g.e && Next(c, s, a).g.ctxs == s.g.ctxs && |s.procs| <= |Next(c, s, a).procs|
  {
    match a
    case Arrive(k) => SumAppend(s.procs, Subscription, Arrived(k));
    case ContextDone(i) => SumUpdate(s.procs, Subscription, i, MarkDone(s.procs[i]));
    case ListenerFails(i) => SumUpdate(s.procs, Subscription, i, Leaving);
    case _ =>
  }

  lemma {:induction false} InvAlong(c: Config, s: State, acts: seq<Action>)
    requires Inv(s) && Executes(c, s, acts)
    ensures Inv(After(c, s, acts))
    decreases |acts|
  {
    if acts != [] {
      if acts[0].ProcStep? {
        InvProcStep(c, s, acts[0]);
      } else {
        InvOuterStep(c, s, acts[0]);
      }
      InvAlong(c, Next(c, s, acts[0]), acts[1..]);
    }
  }

  // ---------------------------------------------------------------- a renewer for every live context

  /** Somebody runs under context `k` or is about to start its renewer. */
  ghost predicate Manned(s: State, k: nat) {
    exists i :: 0 <= i < |s.procs| && RunsUnder(s.procs[i]) == Some(k)
  }

  /** Before Stop every context that is not cancelled has its renewer. */
  ghost predicate AllManned(s: State) {
    !s.g.root ==> forall k: nat :: k < s.g.ctxs.made && k !in s.g.ctxs.cancelled ==> Manned(s, k)
  }

  /** A renewer stops only once its context is done; until then a step keeps its context, or
      starts the renewer that takes it over. */
  lemma KeepsContext(c: Config, g: Shared, p: Proc, a: Action, k: nat)
    requires a.ProcStep? && EnabledProc(g, p, a.alt) && RunsUnder(p) == Some(k)
    requires !g.root && k !in g.ctxs.cancelled
    ensures RunsUnder(ProcMove(c, g, p, a)) == Some(k) || (|Spawned(p)| == 1 && RunsUnder(Spawned(p)[0]) == Some(k))
  {
  }

  lemma NewContext(c: Config, g: Shared, p: Proc, a: Action)
    requires a.ProcStep?
    ensures CtxMove(g.ctxs, g.e, p).made > g.ctxs.made ==>
              CtxMove(g.ctxs, g.e, p).made == g.ctxs.made + 1 && RunsUnder(ProcMove(c, g, p, a)) == Some(g.ctxs.made)
    ensures g.ctxs.cancelled <= CtxMove(g.ctxs, g.e, p).cancelled
  {
  }

  lemma StillManned(c: Config, s: State, a: Action, k: nat)
    requires AllManned(s) && Enabled(s, a) && a.ProcStep? && !s.g.root
    requires k < Next(c, s, a).g.ctxs.made && k !in Next(c, s, a).g.ctxs.cancelled
    ensures Manned(Next(c, s, a), k)
  {
    var s' := Next(c, s, a);
    var p := s.procs[a.i];
    NewContext(c, s.g, p, a);
    assert s'.procs[a.i] == ProcMove(c, s.g, p, a);
    if k < s.g.ctxs.made {
      assert Manned(s, k);
      var i :| 0 <= i < |s.procs| && RunsUnder(s.procs[i]) == Some(k);
      if i == a.i {
        KeepsContext(c, s.g, p, a, k);
        if Spawned(p) != [] {
          assert s'.procs[|s.procs|] == Spawned(p)[0];
        }
      } else {
        assert s'.procs[i] == s.procs[i];
      }
    }
  }

  lemma OuterManned(c: Config, s: State, a: Action, k: nat)
    requires Manned(s, k) && Enabled(s, a) && !a.ProcStep?
    ensures Manned(Next(c, s, a), k)
  {
    var i :| 0 <= i < |s.procs| && RunsUnder(s.procs[i]) == Some(k);
    assert RunsUnder(Next(c, s, a).procs[i]) == Some(k);
  }

  lemma {:induction false} MannedAlong(c: Config, s: State, acts: seq<Action>)
    requires AllManned(s) && Executes(c, s, acts)
    ensures AllManned(After(c, s, acts))
    decreases |acts|
  {
    if acts != [] {
      var s' := Next(c, s, acts[0]);
      if !s'.g.root {
        forall k: nat | k < s'.g.ctxs.made && k !in s'.g.ctxs.cancelled ensures Manned(s', k) {
          if acts[0].ProcStep? {
            StillManned(c, s, acts[0], k);
          } else {
            OuterManned(c, s, acts[0], k);
          }
        }
      }
      MannedAlong(c, s', acts[1..]);
    }
  }

  // ---------------------------------------------------------------- theorem

  /** A renewer goroutine whose context is not done. */
  predicate LiveRenewer(s: State, i: nat) {
    i < |s.procs| && (s.procs[i].Renewer? || s.procs[i].RenewerTimer?) && !CtxDone(s.g, s.procs[i])
  }

  /** A subscriber that has yet to start the renewer it made a context for. */
  predicate Starting(p: Proc) {
    (p.Sds? && p.spc.SSpawn?) || (p.Https? && p.hpc.HSpawn?)
  }

  /** A release between its section and the end of its call. */
  predicate Releasing(p: Proc) {
    p.Leaving? || p.Cancelling?
  }

  /** Renewer lifecycle. In every reachable state `subscribing` is the number of
      outstanding subscriptions, `cancelRenew` is set exactly when that number is
      positive, and every renewer context ever created is the current one, cancelled, or
      held by a release that has yet to cancel it. Hence, once no release is under
      way, at most one renewer is live, and none without a subscriber; and before Stop,
      with a subscriber and no start pending, exactly one is. */
  lemma RenewerLifecycle(c: Config, s: State)
    requires Reachable(c, s)
    ensures s.g.e.subscribing == Sum(s.procs, Subscription)
    ensures s.g.e.cancelRenew.Some? <==> s.g.e.subscribing > 0
    ensures forall k: nat :: k < s.g.ctxs.made ==> Accounted(s, k)
    ensures (forall i :: 0 <= i < |s.procs| ==> !Releasing(s.procs[i])) ==>
              && (forall i: nat, j: nat :: LiveRenewer(s, i) && LiveRenewer(s, j) ==> i == j)
              && (s.g.e.subscribing == 0 ==> forall i: nat :: !LiveRenewer(s, i))
    ensures !s.g.root && s.g.e.subscribing > 0 && (forall i :: 0 <= i < |s.procs| ==> !Starting(s.procs[i])) ==>
              exists i: nat :: LiveRenewer(s, i) && RunsUnder(s.procs[i]) == s.g.e.cancelRenew
  {
    var cert, now, acts :| Executes(c, Init(cert, now), acts) && After(c, Init(cert, now), acts) == s;
    InvAlong(c, Init(cert, now), acts);
    if forall i :: 0 <= i < |s.procs| ==> !Releasing(s.procs[i]) {
      forall i: nat | LiveRenewer(s, i) ensures RunsUnder(s.procs[i]) == s.g.e.cancelRenew {
        assert ProcOk(s.g.e, s.g.ctxs, s.procs[i]);
        assert Accounted(s, RunsUnder(s.procs[i]).value);
      }
    }
    MannedAlong(c, Init(cert, now), acts);
    if !s.g.root && s.g.e.subscribing > 0 && forall i :: 0 <= i < |s.procs| ==> !Starting(s.procs[i]) {
      assert Manned(s, s.g.e.cancelRenew.value);
      var i: nat :| i < |s.procs| && RunsUnder(s.procs[i]) == s.g.e.cancelRenew;
      assert LiveRenewer(s, i);
    }
  }
}
