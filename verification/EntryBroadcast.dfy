/** The versioned broadcast: no lost wakeup, and consumers that are current
    whenever they are idle. */
module EntryBroadcast {
  import opened Base
  import opened EntryModel
  import opened EntrySystem

  // ---------------------------------------------------------------- invariant

  /** History and entry agree. */
  ghost predicate BroadcastOk(e: Entry, minted: seq<Cert>) {
    EntryOk(e) && |minted| == e.version + 1 && minted[e.version] == e.cert
  }

  /** A waiter that saw version `seen`. */
  ghost predicate WaitOk(e: Entry, seen: nat, done: bool, w: WaitPc) {
    && seen <= e.version
    && (w.WParked? ==> (w.ch == e.updated && seen == e.version) || (w.ch in e.closed && seen < e.version))
    && (w.WReread? ==> if w.viaCtx then done else seen < e.version)
  }

  ghost predicate WokeOk(e: Entry, seen: nat, v: nat, done: bool, viaCtx: bool) {
    seen <= v <= e.version && if viaCtx then done else seen < v
  }

  predicate Increasing(log: seq<nat>) {
    forall i, j :: 0 <= i < j < |log| ==> log[i] < log[j]
  }

  predicate Below(log: seq<nat>, v: nat) {
    forall i :: 0 <= i < |log| ==> log[i] < v
  }

  predicate UpTo(log: seq<nat>, v: nat) {
    forall i :: 0 <= i < |log| ==> log[i] <= v
  }

  ghost predicate MintedAs(minted: seq<Cert>, cert: Cert, v: nat) {
    v < |minted| && minted[v] == cert
  }

  ghost predicate SdsOk(e: Entry, minted: seq<Cert>, done: bool, log: seq<nat>, pc: SdsPc) {
    && Increasing(log)
    && match pc
       case SJoin | SSpawn(_) | SFirst => log == []
       case SCheck(cert, seen) => log == [] && seen <= e.version && MintedAs(minted, cert, seen)
       case SWait(seen, last, w) =>
         && WaitOk(e, seen, done, w) && UpTo(log, seen)
         && (last.Some? ==> log != [] && log[|log| - 1] == seen && MintedAs(minted, last.value, seen))
         && (last.None? ==> log == [])
       case SWoke(seen, v, viaCtx) => WokeOk(e, seen, v, done, viaCtx) && UpTo(log, seen)
       case SSnap(floor) => UpTo(log, floor) && floor < e.version
       case SOffer(cert, ver) => Below(log, ver) && ver <= e.version && MintedAs(minted, cert, ver)
       case SAck(cert, ver) =>
         && log != [] && log[|log| - 1] == ver && UpTo(log, ver)
         && ver <= e.version && MintedAs(minted, cert, ver)
  }

  ghost predicate HttpsOk(e: Entry, minted: seq<Cert>, root: bool, pc: HttpsPc) {
    match pc
    case HJoin | HSpawn(_) | HFirst => true
    case HCheck(cert, ver, seen) => seen <= ver <= e.version && MintedAs(minted, cert, ver)
    case HWait(seen, w) => WaitOk(e, seen, root, w)
    case HWoke(seen, v, viaCtx) => WokeOk(e, seen, v, root, viaCtx)
    case HSnap(seen) => seen <= e.version
    case HServe(cert, ver, seen, w) =>
      seen <= ver <= e.version && MintedAs(minted, cert, ver) && WaitOk(e, seen, root, w)
    case HRebind(seen, v, viaCtx) => WokeOk(e, seen, v, root, viaCtx)
    case HSnapNext(seen) => seen <= e.version
  }

  ghost predicate ProcOk(e: Entry, minted: seq<Cert>, root: bool, p: Proc) {
    match p
    case Sds(done, log, pc) => SdsOk(e, minted, done, log, pc)
    case Https(pc) => HttpsOk(e, minted, root, pc)
    case _ => true
  }

  ghost predicate Inv(s: State) {
    && BroadcastOk(s.g.e, s.g.minted)
    && forall i :: 0 <= i < |s.procs| ==> ProcOk(s.g.e, s.g.minted, s.g.root, s.procs[i])
  }

  // ---------------------------------------------------------------- what every step guarantees

  /** The entry moves on by at most one broadcast, which closes the current channel. */
  ghost predicate Guarantee(e: Entry, minted: seq<Cert>, e': Entry, minted': seq<Cert>) {
    || (&& e'.version == e.version && e'.cert == e.cert && e'.updated == e.updated
        && e'.closed == e.closed && e'.chans == e.chans && minted' == minted)
    || (&& e'.version == e.version + 1 && e'.closed == e.closed + {e.updated} && e'.updated == e.chans
        && e'.chans == e.chans + 1 && minted' == minted + [e'.cert])
  }

  lemma StepGuarantee(e: Entry, minted: seq<Cert>, made: nat, p: Proc)
    requires BroadcastOk(e, minted)
    ensures Guarantee(e, minted, EntryMove(e, made, p), MintedMove(minted, p))
    ensures BroadcastOk(EntryMove(e, made, p), MintedMove(minted, p))
  {
  }

  lemma WaitStable(e: Entry, minted: seq<Cert>, e': Entry, minted': seq<Cert>, seen: nat, done: bool, w: WaitPc)
    requires BroadcastOk(e, minted) && Guarantee(e, minted, e', minted') && WaitOk(e, seen, done, w)
    ensures WaitOk(e', seen, done, w)
  {
  }

  lemma SdsStable(e: Entry, minted: seq<Cert>, e': Entry, minted': seq<Cert>, done: bool, log: seq<nat>, pc: SdsPc)
    requires BroadcastOk(e, minted) && Guarantee(e, minted, e', minted') && SdsOk(e, minted, done, log, pc)
    ensures SdsOk(e', minted', done, log, pc)
  {
    if pc.SWait? {
      WaitStable(e, minted, e', minted', pc.seen, done, pc.w);
    }
  }

  lemma HttpsStable(e: Entry, minted: seq<Cert>, e': Entry, minted': seq<Cert>, root: bool, pc: HttpsPc)
    requires BroadcastOk(e, minted) && Guarantee(e, minted, e', minted') && HttpsOk(e, minted, root, pc)
    ensures HttpsOk(e', minted', root, pc)
  {
    if pc.HWait? || pc.HServe? {
      WaitStable(e, minted, e', minted', pc.seen, root, pc.w);
    }
  }

  lemma Stable(e: Entry, minted: seq<Cert>, e': Entry, minted': seq<Cert>, root: bool, p: Proc)
    requires BroadcastOk(e, minted) && Guarantee(e, minted, e', minted') && ProcOk(e, minted, root, p)
    ensures ProcOk(e', minted', root, p)
  {
    match p
    case Sds(done, log, pc) => SdsStable(e, minted, e', minted', done, log, pc);
    case Https(pc) => HttpsStable(e, minted, e', minted', root, pc);
    case _ =>
  }

  /** Cancelling a context never breaks what a process knows. */
  lemma DoneIsMonotone(e: Entry, minted: seq<Cert>, root: bool, p: Proc)
    requires ProcOk(e, minted, root, p)
    ensures ProcOk(e, minted, true, p) && ProcOk(e, minted, root, MarkDone(p))
  {
  }

  // ---------------------------------------------------------------- the acting process

  lemma SdsActs(g: Shared, done: bool, log: seq<nat>, pc: SdsPc, alt: bool)
    requires BroadcastOk(g.e, g.minted) && SdsOk(g.e, g.minted, done, log, pc)
    requires EnabledProc(g, Sds(done, log, pc), alt)
    ensures ProcOk(g.e, g.minted, g.root, SdsMove(g, done, log, pc, alt))
  {
    if pc.SWait? {
      SdsWaits(g, done, log, pc, alt);
    } else if pc.SOffer? {
      SdsOffers(g, done, log, pc, alt);
    }
  }

  lemma SdsWaits(g: Shared, done: bool, log: seq<nat>, pc: SdsPc, alt: bool)
    requires BroadcastOk(g.e, g.minted) && SdsOk(g.e, g.minted, done, log, pc) && pc.SWait?
    requires EnabledWait(g.e, done, pc.w, alt)
    ensures ProcOk(g.e, g.minted, g.root, SdsMove(g, done, log, pc, alt))
  {
  }

  lemma SdsOffers(g: Shared, done: bool, log: seq<nat>, pc: SdsPc, alt: bool)
    requires SdsOk(g.e, g.minted, done, log, pc) && pc.SOffer?
    ensures ProcOk(g.e, g.minted, g.root, SdsMove(g, done, log, pc, alt))
  {
  }

  lemma HttpsActs(g: Shared, pc: HttpsPc, alt: bool)
    requires BroadcastOk(g.e, g.minted) && HttpsOk(g.e, g.minted, g.root, pc)
    requires EnabledProc(g, Https(pc), alt)
    ensures ProcOk(g.e, g.minted, g.root, HttpsMove(g, pc, alt))
  {
  }

  /** The process that acts knows the right things about the entry before its own effect. */
  lemma Acts(c: Config, g: Shared, p: Proc, a: Action)
    requires BroadcastOk(g.e, g.minted) && ProcOk(g.e, g.minted, g.root, p)
    requires a.ProcStep? && EnabledProc(g, p, a.alt)
    ensures ProcOk(g.e, g.minted, g.root, ProcMove(c, g, p, a))
    ensures forall k :: 0 <= k < |Spawned(p)| ==> ProcOk(g.e, g.minted, g.root, Spawned(p)[k])
  {
    match p
    case Sds(done, log, pc) => SdsActs(g, done, log, pc, a.alt);
    case Https(pc) => HttpsActs(g, pc, a.alt);
    case _ =>
  }

  lemma InvProcStep(c: Config, s: State, a: Action)
    requires Inv(s) && Enabled(s, a) && a.ProcStep?
    ensures Inv(Next(c, s, a))
  {
    var s' := Next(c, s, a);
    var p := s.procs[a.i];
    StepGuarantee(s.g.e, s.g.minted, s.g.ctxs.made, p);
    Acts(c, s.g, p, a);
    forall k | 0 <= k < |s'.procs| ensures ProcOk(s'.g.e, s'.g.minted, s'.g.root, s'.procs[k]) {
      Stable(s.g.e, s.g.minted, s'.g.e, s'.g.minted, s.g.root, s'.procs[k]);
    }
  }

  lemma InvStep(c: Config, s: State, a: Action)
    requires Inv(s) && Enabled(s, a)
    ensures Inv(Next(c, s, a))
  {
    var s' := Next(c, s, a);
    if a.ProcStep? {
      InvProcStep(c, s, a);
    } else {
      forall k | 0 <= k < |s'.procs| ensures ProcOk(s'.g.e, s'.g.minted, s'.g.root, s'.procs[k]) {
        if k < |s.procs| {
          DoneIsMonotone(s.g.e, s.g.minted, s.g.root, s.procs[k]);
        }
      }
    }
  }

  lemma {:induction false} InvAlong(c: Config, s: State, acts: seq<Action>)
    requires Inv(s) && Executes(c, s, acts)
    ensures Inv(After(c, s, acts))
    decreases |acts|
  {
    if acts != [] {
      InvStep(c, s, acts[0]);
      InvAlong(c, Next(c, s, acts[0]), acts[1..]);
    }
  }

  lemma InvReachable(c: Config, s: State)
    requires Reachable(c, s)
    ensures Inv(s)
  {
    var cert, now, acts :| Executes(c, Init(cert, now), acts) && After(c, Init(cert, now), acts) == s;
    InvAlong(c, Init(cert, now), acts);
  }

  // ---------------------------------------------------------------- theorems

  /** The wait a process is in: its `seen` and program point. */
  function Waiting(p: Proc): Option<(nat, WaitPc)> {
    match p
    case Sds(_, _, SWait(seen, _, w)) => Some((seen, w))
    case Https(HWait(seen, w)) => Some((seen, w))
    case Https(HServe(_, _, seen, w)) => Some((seen, w))
    case _ => None
  }

  /** What WaitForUpdate returned to a process that has not acted on it yet. */
  function Returned(p: Proc): Option<(nat, nat)> {
    match p
    case Sds(_, _, SWoke(seen, v, _)) => Some((seen, v))
    case Https(HWoke(seen, v, _)) => Some((seen, v))
    case Https(HRebind(seen, v, _)) => Some((seen, v))
    case _ => None
  }

  /** No lost wakeup. In every reachable state a process parked in WaitForUpdate sleeps
      on the entry's current, open channel and has seen the current version, or sleeps
      on a closed channel and a newer version exists; the channel a broadcast would
      close is open; and a return under a live context is strictly newer than `seen`. */
  lemma NoLostWakeup(c: Config, s: State, i: nat)
    requires Reachable(c, s) && i < |s.procs|
    ensures s.g.e.updated !in s.g.e.closed
    ensures Waiting(s.procs[i]).Some? && Waiting(s.procs[i]).value.1.WParked? ==>
              var (seen, w) := Waiting(s.procs[i]).value;
              if w.ch in s.g.e.closed then seen < s.g.e.version
              else w.ch == s.g.e.updated && seen == s.g.e.version
    ensures Returned(s.procs[i]).Some? && !CtxDone(s.g, s.procs[i]) ==>
              var (seen, v) := Returned(s.procs[i]).value; seen < v <= s.g.e.version
  {
    InvReachable(c, s);
    assert ProcOk(s.g.e, s.g.minted, s.g.root, s.procs[i]);
  }

  /** The wakeup is taken. A process parked on a closed channel can go on at once, and its own two
      steps bring it out of WaitForUpdate with a version newer than the one it had seen. */
  lemma WakesUp(c: Config, s: State, i: nat, a: Action)
    requires Reachable(c, s) && i < |s.procs| && a == ProcStep(i, true, "", "")
    requires Waiting(s.procs[i]).Some? && Waiting(s.procs[i]).value.1.WParked?
    requires Waiting(s.procs[i]).value.1.ch in s.g.e.closed
    ensures Enabled(s, a) && Enabled(Next(c, s, a), a)
    ensures var t := Next(c, Next(c, s, a), a); var seen := Waiting(s.procs[i]).value.0;
            && t.g == s.g && i < |t.procs|
            && Returned(t.procs[i]) == Some((seen, s.g.e.version)) && seen < s.g.e.version
  {
    NoLostWakeup(c, s, i);
  }

  /** Consumers are current when idle. The versions one SDS handler offers strictly
      increase; and whenever it or the HTTPS server's waiter is parked on an open
      channel, the certificate last offered or being served is the entry's current one. */
  lemma CurrentWhenIdle(c: Config, s: State, i: nat)
    requires Reachable(c, s) && i < |s.procs|
    ensures s.procs[i].Sds? ==> Increasing(s.procs[i].log)
    ensures Waiting(s.procs[i]).Some? && Waiting(s.procs[i]).value.1.WParked?
              && Waiting(s.procs[i]).value.1.ch !in s.g.e.closed ==>
              && (s.procs[i].Sds? && s.procs[i].log != [] ==>
                    s.procs[i].spc.last == Some(s.g.e.cert) && s.procs[i].log[|s.procs[i].log| - 1] == s.g.e.version)
              && (s.procs[i].Https? && s.procs[i].hpc.HServe? ==> s.procs[i].hpc.cert == s.g.e.cert)
  {
    InvReachable(c, s);
    assert ProcOk(s.g.e, s.g.minted, s.g.root, s.procs[i]);
  }
}
