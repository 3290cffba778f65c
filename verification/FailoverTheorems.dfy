/** The failover machine's promises, stated for every state a run can reach. */
module FailoverTheorems {
  import opened Base
  import opened FailoverModel
  import opened FailoverSafety

  // ---------------------------------------------------------------- single driver token

  /** The places a driver token can be. */
  datatype Holder = InSlot | AtDispatcher | AtCaller | AtThread(i: nat)

  predicate Holds(s: State, h: Holder) {
    match h
    case InSlot => SlotDrives(s.g)
    case AtDispatcher => Carries(s.g.disp)
    case AtCaller => s.g.caller == CSendMain
    case AtThread(i) => i < |s.threads| && Drives(s.threads[i])
  }

  ghost predicate HasToken(s: State) {
    exists h :: Holds(s, h)
  }

  lemma ClashFree(c: Config, s: State, i: nat, j: nat)
    requires Inv(c, s) && i < |s.threads| && j < |s.threads|
    ensures i != j ==> !Clash(s.g, s.threads[i], s.threads[j])
  {
    ClashSymmetric(s.g, s.threads[i], s.threads[j]);
  }

  lemma UniqueHolder(c: Config, s: State, h: Holder, k: Holder)
    requires Inv(c, s)
    ensures Holds(s, h) && Holds(s, k) ==> h == k
  {
    if h.AtThread? && h.i < |s.threads| {
      assert ThreadOk(c, s.g, s.threads[h.i]);
    }
    if k.AtThread? && k.i < |s.threads| {
      assert ThreadOk(c, s.g, s.threads[k.i]);
      if h.AtThread? && h.i < |s.threads| {
        ClashFree(c, s, h.i, k.i);
      }
    }
  }

  /** A goroutine keeps its token, passes it to the channel, or loses it for a stated reason. */
  lemma GoroutinePassesToken(c: Config, g: Shared, retry: nat, t: Thread, alt: bool)
    requires EnabledThread(g, t, alt)
    ensures Drives(t) && !g.root && !(t.RWait? && !alt)
            ==> Drives(ThreadMove(c, g, retry, t, alt)) || SlotDrives(SharedMove(g, t, alt))
    ensures Drives(ThreadMove(c, g, retry, t, alt)) ==> Drives(t)
    ensures SlotDrives(SharedMove(g, t, alt)) ==> Drives(t) || SlotDrives(g)
    ensures SlotDrives(g) ==> SlotDrives(SharedMove(g, t, alt))
    ensures SharedMove(g, t, alt).disp == g.disp && SharedMove(g, t, alt).caller == g.caller
    ensures t.RWait? && !alt ==> !Drives(ThreadMove(c, g, retry, t, alt)) && SharedMove(g, t, alt) == g
  {
  }

  /** A dispatcher step hands its token on, before Stop. */
  lemma DispatcherPassesToken(g: Shared, alt: bool)
    requires EnabledDisp(g, alt)
    ensures !g.root && (Carries(g.disp) || SlotDrives(g)) && (g.slot.None? || !g.disp.DSend?)
            ==> (Carries(DispMove(g, alt).disp) || SlotDrives(DispMove(g, alt))
                 || (Spawned(g) != [] && Drives(Spawned(g)[0])))
    ensures Carries(DispMove(g, alt).disp) || SlotDrives(DispMove(g, alt)) ==> Carries(g.disp) || SlotDrives(g)
    ensures Spawned(g) != [] ==> Carries(g.disp) && |Spawned(g)| == 1
    ensures DispMove(g, alt).caller == g.caller
  {
  }

  lemma CallerPassesToken(g: Shared, wg: int, alt: bool)
    requires EnabledCaller(g, wg, alt)
    ensures !g.root && g.caller == CSendMain ==> SlotDrives(CallerMove(g, alt))
    ensures SlotDrives(CallerMove(g, alt)) ==> SlotDrives(g) || g.caller == CSendMain
    ensures CallerMove(g, alt).caller != CSendMain && CallerMove(g, alt).disp == g.disp
    ensures SlotDrives(g) && (g.root ==> g.slot.None?) ==> SlotDrives(CallerMove(g, alt))
  {
  }

  /** The restart goroutine's session-cancelled exit. */
  predicate GivesUp(s: State, a: Action) {
    a.ThreadStep? && a.i < |s.threads| && s.threads[a.i].RWait? && !a.alt
  }

  lemma TokenComesFromToken(c: Config, s: State, a: Action, h': Holder) returns (h: Holder)
    requires Inv(c, s) && Enabled(s, a) && Holds(Next(c, s, a), h')
    ensures Holds(s, h)
  {
    match a
    case StopCalled | MainReceives => h := h';
    case CallerStep(alt) =>
      CallerPassesToken(s.g, s.wg, alt);
      h := if s.g.caller == CSendMain then AtCaller else h';
    case DispStep(alt) =>
      DispatcherPassesToken(s.g, alt);
      h := if Carries(s.g.disp) then AtDispatcher else if SlotDrives(s.g) then InSlot else h';
    case ThreadStep(i, alt) =>
      GoroutinePassesToken(c, s.g, s.book.retry, s.threads[i], alt);
      h := if Drives(s.threads[i]) then AtThread(i) else h';
  }

  lemma TokenGoesToToken(c: Config, s: State, a: Action, h: Holder) returns (h': Holder)
    requires Inv(c, s) && Enabled(s, a) && Holds(s, h) && !s.g.root && !GivesUp(s, a)
    ensures Holds(Next(c, s, a), h')
  {
    match a
    case StopCalled | MainReceives => h' := h;
    case CallerStep(alt) =>
      CallerPassesToken(s.g, s.wg, alt);
      h' := if s.g.caller == CSendMain then InSlot else h;
    case DispStep(alt) =>
      DispatcherPassesToken(s.g, alt);
      var s' := Next(c, s, a);
      if Carries(s'.g.disp) {
        h' := AtDispatcher;
      } else if SlotDrives(s'.g) {
        h' := InSlot;
      } else if Spawned(s.g) != [] && Drives(Spawned(s.g)[0]) {
        h' := AtThread(|s.threads|);
      } else {
        h' := h;
      }
    case ThreadStep(i, alt) =>
      GoroutinePassesToken(c, s.g, s.book.retry, s.threads[i], alt);
      var s' := Next(c, s, a);
      if Drives(s'.threads[i]) {
        h' := AtThread(i);
      } else if SlotDrives(s'.g) {
        h' := InSlot;
      } else {
        h' := h;
      }
  }

  /** Before Stop the token exists exactly as long as no restart goroutine has given up. */
  ghost predicate TokenInv(s: State) {
    !s.g.root ==> (HasToken(s) <==> !s.book.dropped)
  }

  lemma OnlyGivingUpDrops(c: Config, s: State, a: Action)
    requires Enabled(s, a)
    ensures Next(c, s, a).book.dropped <==> s.book.dropped || (GivesUp(s, a) && !s.g.root)
  {
  }

  lemma TokenInvStep(c: Config, s: State, a: Action)
    requires Inv(c, s) && TokenInv(s) && Enabled(s, a)
    ensures TokenInv(Next(c, s, a))
  {
    var s' := Next(c, s, a);
    OnlyGivingUpDrops(c, s, a);
    if !s'.g.root {
      RootStaysDown(c, s, a);
      if GivesUp(s, a) {
        if h' :| Holds(s', h') {
          GivingUpLosesTheToken(c, s, a, h');
        }
      } else {
        if h :| Holds(s, h) {
          var h' := TokenGoesToToken(c, s, a, h);
        }
        if h' :| Holds(s', h') {
          var h := TokenComesFromToken(c, s, a, h');
        }
      }
    }
  }

  lemma RootStaysDown(c: Config, s: State, a: Action)
    requires Enabled(s, a)
    ensures s.g.root ==> Next(c, s, a).g.root
    ensures Next(c, s, a).g.root ==> s.g.root || a == StopCalled
  {
  }

  lemma GivingUpLosesTheToken(c: Config, s: State, a: Action, h: Holder)
    requires Inv(c, s) && Enabled(s, a) && GivesUp(s, a)
    ensures !Holds(Next(c, s, a), h)
  {
    GoroutinePassesToken(c, s.g, s.book.retry, s.threads[a.i], a.alt);
    assert Holds(s, AtThread(a.i));
    if Holds(Next(c, s, a), h) {
      assert Holds(s, h);
      UniqueHolder(c, s, h, AtThread(a.i));
    }
  }

  lemma {:induction false} TokenInvAlong(c: Config, s: State, acts: seq<Action>)
    requires Inv(c, s) && TokenInv(s) && Executes(c, s, acts)
    ensures TokenInv(After(c, s, acts))
    decreases |acts|
  {
    if acts != [] {
      InvStep(c, s, acts[0]);
      TokenInvStep(c, s, acts[0]);
      TokenInvAlong(c, Next(c, s, acts[0]), acts[1..]);
    }
  }

  /** Single driver token. In every reachable state at most one of the channel, the
      dispatcher, GRPCMain and the goroutines holds a driver token, and before
      Stop there is none exactly when a restart goroutine has left through its
      session-cancelled exit. */
  lemma SingleDriverToken(c: Config, s: State)
    requires Reachable(c, s)
    ensures forall h, k :: Holds(s, h) && Holds(s, k) ==> h == k
    ensures !s.g.root ==> ((exists h :: Holds(s, h)) <==> !s.book.dropped)
  {
    InvReachable(c, s);
    forall h, k ensures Holds(s, h) && Holds(s, k) ==> h == k {
      UniqueHolder(c, s, h, k);
    }
    var acts :| Executes(c, Init(), acts) && After(c, Init(), acts) == s;
    assert Holds(Init(), AtCaller);
    TokenInvAlong(c, Init(), acts);
  }

  /** No two main goroutines overlap between the start of their stream and the
      choice of their next state, and the dispatcher's own sends never find the
      slot occupied before Stop. */
  lemma NoOverlapNoSelfBlock(c: Config, s: State, i: nat, j: nat)
    requires Reachable(c, s)
    ensures MainAlive(s, i) && MainAlive(s, j) ==> i == j
    ensures s.g.disp.DSend? && !s.g.root ==> s.g.slot.None?
  {
    InvReachable(c, s);
    UniqueHolder(c, s, AtThread(i), AtThread(j));
    UniqueHolder(c, s, AtDispatcher, InSlot);
  }

  /** Goroutine `i` is a main goroutine that may still touch the retry counter or the stream. */
  predicate MainAlive(s: State, i: nat) {
    i < |s.threads| && IsMain(s.threads[i]) && !s.threads[i].MExit?
  }

  // ---------------------------------------------------------------- standby ownership

  /** Standby ownership. At most one failover goroutine exists until it clears the
      flag; each of its reads of the mutable session field denotes the session it
      was spawned for, and so does every context it captured; before Stop that
      session is cancelled only after main received a message later than the arming
      of that session's fallback; no fallback ever killed a standby stream of another
      session; and every session but the current one is cancelled, once the dispatcher
      has left that one too. */
  lemma StandbyOwnership(c: Config, s: State)
    requires Reachable(c, s)
    ensures forall i: nat, j: nat :: FailoverAlive(s, i) && FailoverAlive(s, j) ==> i == j
    ensures forall i: nat :: FailoverAlive(s, i) ==> s.g.active
    ensures forall i: nat :: FailoverAlive(s, i) && ReadsSession(s.threads[i]) ==> s.g.sess == s.threads[i].own
    ensures forall i: nat :: FailoverAlive(s, i) && (s.threads[i].FStream? || s.threads[i].FSleep?) ==>
              s.threads[i].ctx == s.threads[i].own
    ensures forall i: nat :: FailoverAlive(s, i) && !s.g.root && s.threads[i].own in s.g.cancelled ==>
              s.threads[i].own in s.g.fired && s.g.fired[s.threads[i].own] < s.g.recvGen
    ensures forall k :: 0 <= k < |s.g.kills| && s.g.kills[k].victim.Some? ==>
              s.g.kills[k].victim.value == s.g.kills[k].killer
    ensures forall k: nat :: k < s.g.sess || (k == s.g.sess && s.g.disp == DGone) ==> k in s.g.cancelled
  {
    InvReachable(c, s);
    forall i: nat, j: nat | FailoverAlive(s, i) && FailoverAlive(s, j) ensures i == j {
      ClashFree(c, s, i, j);
    }
  }

  /** Goroutine `i` is a failover goroutine that has not cleared `standbyActive`. */
  predicate FailoverAlive(s: State, i: nat) {
    i < |s.threads| && IsFailover(s.threads[i])
  }

  // ---------------------------------------------------------------- kill, then cancel

  /** A fallback goroutine of session `on` has called Kill. */
  ghost predicate Killed(g: Shared, on: nat) {
    exists k :: 0 <= k < |g.kills| && g.kills[k].killer == on
  }

  ghost predicate KillsFirst(s: State) {
    && (forall on :: on in s.g.fired ==> Killed(s.g, on))
    && (forall i :: 0 <= i < |s.threads| && s.threads[i].BCancel? ==> Killed(s.g, s.threads[i].on))
  }

  lemma KillsGrow(g: Shared, t: Thread, alt: bool, on: nat)
    ensures Killed(g, on) ==> Killed(SharedMove(g, t, alt), on)
    ensures t.BKill? ==> Killed(SharedMove(g, t, alt), t.on)
    ensures t.BCancel? && t.on == on && Killed(g, on) ==> Killed(SharedMove(g, t, alt), on)
  {
    var g' := SharedMove(g, t, alt);
    if k :| 0 <= k < |g.kills| && g.kills[k].killer == on {
      assert g'.kills[k].killer == on;
    }
    if t.BKill? {
      assert g'.kills[|g.kills|].killer == t.on;
    }
  }

  lemma KillsFirstStep(c: Config, s: State, a: Action)
    requires KillsFirst(s) && Enabled(s, a)
    ensures KillsFirst(Next(c, s, a))
  {
    var s' := Next(c, s, a);
    if a.ThreadStep? {
      var t := s.threads[a.i];
      forall on | on in s'.g.fired ensures Killed(s'.g, on) {
        KillsGrow(s.g, t, a.alt, on);
      }
      forall i | 0 <= i < |s'.threads| && s'.threads[i].BCancel? ensures Killed(s'.g, s'.threads[i].on) {
        KillsGrow(s.g, t, a.alt, s'.threads[i].on);
      }
    } else {
      OthersKillNobody(c, s, a);
      assert forall on :: Killed(s'.g, on) <==> Killed(s.g, on);
    }
  }

  lemma OthersKillNobody(c: Config, s: State, a: Action)
    requires Enabled(s, a) && !a.ThreadStep?
    ensures Next(c, s, a).g.kills == s.g.kills && Next(c, s, a).g.fired == s.g.fired
    ensures forall i :: 0 <= i < |Next(c, s, a).threads| && Next(c, s, a).threads[i].BCancel? ==>
              i < |s.threads| && Next(c, s, a).threads[i] == s.threads[i]
  {
  }

  lemma {:induction false} KillsFirstAlong(c: Config, s: State, acts: seq<Action>)
    requires KillsFirst(s) && Executes(c, s, acts)
    ensures KillsFirst(After(c, s, acts))
    decreases |acts|
  {
    if acts != [] {
      KillsFirstStep(c, s, acts[0]);
      KillsFirstAlong(c, Next(c, s, acts[0]), acts[1..]);
    }
  }

  /** Kill, then cancel. A session that a fallback goroutine has cancelled had its standby killed
      by that goroutine first; and a kill issued while a standby stream runs hits that stream,
      before Stop one of the killer's own session. */
  lemma KillBeforeCancel(c: Config, s: State, i: nat, j: nat, alt: bool)
    requires Reachable(c, s)
    ensures forall on :: on in s.g.fired ==> Killed(s.g, on)
    ensures i < |s.threads| && s.threads[i].BKill? && j < |s.threads| && s.threads[j].FStream? ==>
              && Enabled(s, ThreadStep(i, alt))
              && Next(c, s, ThreadStep(i, alt)).g.kills == s.g.kills + [Kill(s.threads[i].on, Some(s.threads[j].own))]
              && (!s.g.root ==> s.threads[i].on == s.threads[j].own)
  {
    InvReachable(c, s);
    var acts :| Executes(c, Init(), acts) && After(c, Init(), acts) == s;
    KillsFirstAlong(c, Init(), acts);
    if i < |s.threads| && s.threads[i].BKill? && j < |s.threads| && s.threads[j].FStream? {
      assert ThreadOk(c, s.g, s.threads[i]) && ThreadOk(c, s.g, s.threads[j]);
    }
  }

  /** The session the goroutine waits on. */
  function WaitsOn(t: Thread): Option<nat> {
    match t
    case FSleep(_, _, ctx, _) => Some(ctx)
    case BWait(on, _) => Some(on)
    case RWait(on) => Some(on)
    case _ => None
  }

  /** A cancelled session is left at once. In every reachable state a failover, fallback or restart
      goroutine waiting in a cancelled session can leave without a timer or a message, and
      the failover goroutine's checks of the session field send it out too. */
  lemma CancelledLeaves(c: Config, s: State, i: nat)
    requires Reachable(c, s) && i < |s.threads|
    ensures WaitsOn(s.threads[i]).Some? && Cancelled(s.g, WaitsOn(s.threads[i]).value) ==>
              && Enabled(s, ThreadStep(i, false))
              && CallsDone(Next(c, s, ThreadStep(i, false)).threads[i])
    ensures forall alt :: (s.threads[i].FTop? || s.threads[i].FAfter?) && Cancelled(s.g, s.threads[i].own) ==>
              Next(c, s, ThreadStep(i, alt)).threads[i] == FDone(s.threads[i].own)
  {
    InvReachable(c, s);
    assert ThreadOk(c, s.g, s.threads[i]);
  }
}
