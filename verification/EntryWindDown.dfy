/** Everything that works on an entry leaves once its context is done, without waiting for a
    message, a timer or a renewal; and so does the writer after Stop. */
module EntryWindDown {
  import opened Base
  import opened EntrySystem
  import opened EntryRuns
  import Disk = EntryDisk

  // ---------------------------------------------------------------- processes

  function RenewRank(pc: RenewPc): nat {
    match pc
    case RStart => 5
    case RLock => 12
    case RSnap => 11
    case RDecide(_) => 10
    case ROrder => 9
    case RObtain(_) => 8
    case RPublish(_) => 7
    case RHandOff(_, _) => 6
    case RUnlock(_) => 5
    case RExit(_) => 4
  }

  function WaitRank(w: WaitPc): nat {
    match w
    case WBegin => 3
    case WParked(_) => 2
    case WReread(_) => 1
  }

  function SdsRank(pc: SdsPc): nat {
    match pc
    case SJoin => 20
    case SSpawn(_) => 19
    case SFirst => 18
    case SCheck(_, _) => 17
    case SWait(_, _, w) => 13 + WaitRank(w)
    case SWoke(_, _, _) => 13
    case SSnap(_) => 12
    case SOffer(_, _) => 5
    case SAck(_, _) => 4
  }

  function HttpsRank(pc: HttpsPc): nat {
    match pc
    case HJoin => 21
    case HSpawn(_) => 20
    case HFirst => 19
    case HSnap(_) => 19
    case HCheck(_, _, _) => 18
    case HWait(_, w) => 14 + WaitRank(w)
    case HWoke(_, _, _) => 14
    case HServe(_, _, _, w) => 7 + WaitRank(w)
    case HRebind(_, _, _) => 7
    case HSnapNext(_) => 6
  }

  /** Steps a process whose context is done has left. */
  function Rank(p: Proc): nat {
    match p
    case Gone => 0
    case Replied(_, _, _) => 0
    case Renewer(_, pc) => RenewRank(pc)
    case RenewerTimer(_) => 3
    case ReqCheck(_) => 6
    case ReqRenew(_, pc) => RenewRank(pc)
    case ReqReply(_, _) => 1
    case Sds(_, _, pc) => SdsRank(pc)
    case Https(pc) => HttpsRank(pc)
    case Leaving => 2
    case Cancelling(_) => 1
  }

  /** The one thing it may have to wait for: the renewal lock. */
  predicate AtLock(p: Proc) {
    Rpc(p) == Some(RLock)
  }

  /** Done for good: nothing a process does brings its context back. */
  predicate Ending(g: Shared, p: Proc) {
    CtxDone(g, p) || p.Leaving? || p.Cancelling? || p.Gone? || p.Replied?
  }

  lemma EndsSooner(c: Config, g: Shared, i: nat, p: Proc, a: Action)
    requires Ending(g, p) && Rank(p) > 0 && (AtLock(p) ==> g.lock.holder.None?) && a == ProcStep(i, false, "", "")
    ensures EnabledProc(g, p, false)
    ensures Rank(ProcMove(c, g, p, a)) < Rank(p) && !AtLock(ProcMove(c, g, p, a))
    ensures Ending(SharedMove(c, g, i, p, false), ProcMove(c, g, p, a))
  {
  }

  /** Nobody is stuck. A process whose context is done and which is not waiting for the lock of
      another gets by its own steps to its end, always taking the branch that needs nobody
      else: a consumer has then released the entry, a renewer is gone, a request is answered
      or has returned its error. */
  lemma {:induction false} WindsDown(c: Config, s: State, i: nat) returns (t: State)
    requires i < |s.procs| && Ending(s.g, s.procs[i]) && (AtLock(s.procs[i]) ==> s.g.lock.holder.None?)
    ensures Leads(c, s, i, t) && i < |t.procs| && (t.procs[i].Gone? || t.procs[i].Replied?)
    decreases Rank(s.procs[i])
  {
    Stay(c, s, i);
    if Rank(s.procs[i]) == 0 {
      t := s;
    } else {
      var a := ProcStep(i, false, "", "");
      EndsSooner(c, s.g, i, s.procs[i], a);
      Go(c, s, i, s, a);
      var u := Next(c, s, a);
      assert u.procs[i] == ProcMove(c, s.g, s.procs[i], a) && u.g == SharedMove(c, s.g, i, s.procs[i], false);
      t := WindsDown(c, u, i);
      LeadsOn(c, s, i, u, t);
    }
  }

  /** The end of a stream or of a request ends its process. */
  lemma ContextEnds(c: Config, s: State, i: nat)
    requires Enabled(s, ContextDone(i))
    ensures var t := Next(c, s, ContextDone(i)); Ending(t.g, t.procs[i]) && Rank(t.procs[i]) == Rank(s.procs[i])
  {
  }

  /** Stop ends everything that runs under the root context. */
  lemma StopEnds(c: Config, s: State, i: nat)
    requires Enabled(s, StopCalled) && i < |s.procs|
    ensures var t := Next(c, s, StopCalled);
            t.procs[i].Renewer? || t.procs[i].RenewerTimer? || t.procs[i].Https? ==> Ending(t.g, t.procs[i])
  {
  }

  /** Only a process under a cancelled context is ended before its work is done: a renewal caller
      whose context was done when it called leaves without touching the entry. */
  lemma DeadCallerTouchesNothing(c: Config, s: State, i: nat) returns (t: State)
    requires i < |s.procs| && Rpc(s.procs[i]) == Some(RStart) && CtxDone(s.g, s.procs[i])
    ensures Leads(c, s, i, t) && t.g == s.g && t.procs == s.procs[i := Gone]
  {
    var a := ProcStep(i, false, "", "");
    Stay(c, s, i);
    Go(c, s, i, s, a);
    t := Next(c, s, a);
    assert Rpc(t.procs[i]) == Some(RExit(Failed));
    Go(c, s, i, t, a);
    t := Next(c, t, a);
  }

  /** And it cannot do otherwise: none of its steps orders or takes the lock. */
  lemma DeadCallerOrdersNothing(c: Config, s: State, i: nat, a: Action)
    requires i < |s.procs| && Rpc(s.procs[i]) == Some(RStart) && CtxDone(s.g, s.procs[i])
    requires a.ProcStep? && a.i == i
    ensures Enabled(s, a) && Next(c, s, a).g == s.g && Rpc(Next(c, s, a).procs[i]) == Some(RExit(Failed))
  {
  }

  /** A request whose call of `renew` succeeded is answered with the current certificate. */
  lemma RequestAnswered(c: Config, s: State, i: nat, done: bool, out: Outcome) returns (t: State)
    requires i < |s.procs| && s.procs[i] == ReqRenew(done, RExit(out))
    ensures Leads(c, s, i, t) && t.g == s.g
    ensures t.procs == s.procs[i := if out.Failed? then Gone else Replied(s.g.e.cert, s.g.e.version, Some(out))]
  {
    var a := ProcStep(i, true, "", "");
    Stay(c, s, i);
    Go(c, s, i, s, a);
    t := Next(c, s, a);
    if !out.Failed? {
      assert t.procs == s.procs[i := ReqReply(done, Some(out))];
      Go(c, s, i, t, a);
      t := Next(c, t, a);
    }
  }

  /** A version is given up only by a caller whose context is done. */
  lemma AbandonedOnlyWhenDone(c: Config, s: State, a: Action)
    requires Enabled(s, a) && Next(c, s, a).g.d.abandoned != s.g.d.abandoned
    ensures a.ProcStep? && CtxDone(s.g, s.procs[a.i]) && Rpc(s.procs[a.i]).Some? && Rpc(s.procs[a.i]).value.RHandOff?
    ensures Next(c, s, a).g.d.abandoned == s.g.d.abandoned + {Rpc(s.procs[a.i]).value.ver}
  {
  }

  // ---------------------------------------------------------------- the writer

  /** The writer drains the queue or has left. */
  predicate Draining(d: EntrySystem.Disk) {
    d.writer.WDrain? || d.writer.WGone? || (d.writer.WPersist? && d.writer.draining)
  }

  lemma DrainStep(c: Config, s: State, a: Action)
    requires Enabled(s, a)
    ensures Draining(s.g.d) ==> Draining(Next(c, s, a).g.d)
    ensures Draining(Next(c, s, a).g.d) ==> Draining(s.g.d) || s.g.root
    ensures s.g.root ==> Next(c, s, a).g.root
  {
  }

  /** The writer starts draining only after Stop, and then never waits for an update again. */
  lemma {:induction false} DrainOnlyAfterStop(c: Config, s: State, acts: seq<Action>)
    requires Executes(c, s, acts) && (Draining(s.g.d) ==> s.g.root)
    ensures var t := After(c, s, acts); (Draining(t.g.d) ==> t.g.root) && (Draining(s.g.d) ==> Draining(t.g.d))
    decreases |acts|
  {
    if acts != [] {
      DrainStep(c, s, acts[0]);
      DrainOnlyAfterStop(c, Next(c, s, acts[0]), acts[1..]);
    }
  }

  /** With nothing waiting, two steps at most. */
  lemma WriterExits(c: Config, s: State) returns (t: State)
    requires Disk.AllInv(s) && s.g.root && s.g.d.queue == [] && s.g.d.writer in {WSelect, WDrain}
    ensures Disk.WriterLeads(c, s, t) && t.g.d == s.g.d.(writer := WGone)
  {
    t := s;
    Disk.WriterStays(c, s);
    if s.g.d.writer == WSelect {
      t := Disk.WriterGoes(c, s, WriterStep(true, false));
    }
    var u := Disk.WriterGoes(c, t, WriterStep(false, false));
    Disk.WriterLeadsOn(c, s, t, u);
    t := u;
  }

  /** After Stop the writer's own steps lead to its end, with the queue empty and everything it
      ever accepted in its map; and on disk, if anything was waiting. */
  lemma WriterLeaves(c: Config, s: State) returns (t: State)
    requires Reachable(c, s) && s.g.root && s.g.d.writer != WGone
    ensures Disk.WriterLeads(c, s, t) && t.g.d.writer == WGone && t.g.d.queue == []
    ensures forall v :: v in s.g.d.accepted ==> v <= t.g.d.store.ver
    ensures s.g.d.queue != [] || s.g.d.writer.WPersist? ==> t.g.d.file == Some(t.g.d.store)
  {
    Disk.InvReachable(c, s);
    if s.g.d.queue != [] || s.g.d.writer.WPersist? {
      var u := Disk.SavesAll(c, s);
      assert u.g.d.queue == Disk.Pipeline(u.g.d);
      t := WriterExits(c, u);
      Disk.WriterLeadsOn(c, s, u, t);
    } else {
      t := WriterExits(c, s);
    }
  }
}
