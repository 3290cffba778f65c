/** What the two consumers of an entry do when they are left alone: a stream's handler offers the
    current certificate and waits, the HTTPS server serves it and waits. */
module EntryConsumers {
  import opened Base
  import opened EntryModel
  import opened EntrySystem
  import opened EntryRuns
  import opened EntryBroadcast

  // ---------------------------------------------------------------- the SDS handler

  /** The handler has subscribed and its stream is alive. */
  predicate Attending(p: Proc) {
    p.Sds? && !p.done && !p.spc.SJoin? && !p.spc.SSpawn?
  }

  /** Steps to the point where the handler waits having seen the current version. */
  function SdsRank(e: Entry, pc: SdsPc): nat {
    match pc
    case SJoin | SSpawn(_) => 13
    case SFirst => 12
    case SCheck(_, seen) => if seen == e.version then 6 else 11
    case SWait(seen, _, w) =>
      if w == WParked(e.updated) then 0
      else if w.WBegin? && seen == e.version then 1
      else if w.WParked? then 8 else 7
    case SWoke(_, _, _) => 6
    case SSnap(_) => 5
    case SOffer(_, ver) => if ver == e.version then 4 else 10
    case SAck(_, ver) => if ver == e.version then 3 else 9
  }

  /** The handler is parked on the current version; if it has offered anything, that version last. */
  predicate SdsResting(e: Entry, p: Proc) {
    && p.Sds? && p.spc.SWait? && p.spc.seen == e.version && p.spc.w == WParked(e.updated)
    && (p.log != [] ==> p.spc.last == Some(e.cert) && p.log[|p.log| - 1] == e.version)
  }

  /** One step of an attending handler changes nothing but the handler. */
  lemma SdsGoes(c: Config, s: State, i: nat) returns (t: State)
    requires Inv(s) && i < |s.procs| && Attending(s.procs[i]) && SdsRank(s.g.e, s.procs[i].spc) > 0
    ensures t.g == s.g && Leads(c, s, i, t) && Inv(t)
    ensures t.procs == s.procs[i := SdsMove(s.g, false, s.procs[i].log, s.procs[i].spc, true)]
    ensures Attending(t.procs[i]) && SdsRank(s.g.e, t.procs[i].spc) < SdsRank(s.g.e, s.procs[i].spc)
    ensures s.procs[i].log <= t.procs[i].log
  {
    var a := ProcStep(i, true, "", "");
    assert ProcOk(s.g.e, s.g.minted, s.g.root, s.procs[i]);
    SdsCanGo(s.g, s.procs[i]);
    Stay(c, s, i);
    Go(c, s, i, s, a);
    t := Next(c, s, a);
    InvStep(c, s, a);
    assert t.procs == s.procs[i := SdsMove(s.g, false, s.procs[i].log, s.procs[i].spc, true)];
  }

  lemma SdsCanGo(g: Shared, p: Proc)
    requires BroadcastOk(g.e, g.minted) && ProcOk(g.e, g.minted, g.root, p)
    requires Attending(p) && SdsRank(g.e, p.spc) > 0
    ensures EnabledProc(g, p, true)
    ensures var p' := SdsMove(g, false, p.log, p.spc, true);
            Attending(p') && SdsRank(g.e, p'.spc) < SdsRank(g.e, p.spc) && p.log <= p'.log
  {
  }

  /** A handler left alone comes to rest on the current version, whatever it was doing. */
  lemma {:induction false} SdsSettles(c: Config, s: State, i: nat) returns (t: State)
    requires Inv(s) && i < |s.procs| && Attending(s.procs[i])
    ensures Leads(c, s, i, t) && t.g == s.g && i < |t.procs| && SdsResting(t.g.e, t.procs[i])
    ensures s.procs[i].log <= t.procs[i].log
    ensures Commits(s.procs[i]) ==> t.procs[i].log != []
    ensures t.procs[i].log == [] ==> s.procs[i].spc.SWait? || !IsValid(FirstLook(s.g.e, s.procs[i].spc), s.g.now)
    decreases SdsRank(s.g.e, s.procs[i].spc)
  {
    assert ProcOk(s.g.e, s.g.minted, s.g.root, s.procs[i]);
    if SdsRank(s.g.e, s.procs[i].spc) == 0 {
      t := s;
      Stay(c, s, i);
    } else {
      var u := SdsGoes(c, s, i);
      t := SdsSettles(c, u, i);
      LeadsOn(c, s, i, u, t);
      CommitsNext(s.g, s.procs[i]);
    }
  }

  /** The certificate a handler that has offered nothing decides on. */
  function FirstLook(e: Entry, pc: SdsPc): Cert {
    match pc
    case SCheck(cert, _) => cert
    case _ => e.cert
  }

  /** The handler will offer something next, or has. */
  predicate Commits(p: Proc) {
    p.Sds? && (p.log != [] || p.spc.SWoke? || p.spc.SSnap? || p.spc.SOffer? || p.spc.SAck?)
  }

  lemma CommitsNext(g: Shared, p: Proc)
    requires BroadcastOk(g.e, g.minted) && ProcOk(g.e, g.minted, g.root, p)
    requires Attending(p) && SdsRank(g.e, p.spc) > 0
    ensures var p' := SdsMove(g, false, p.log, p.spc, true);
            && (Commits(p) ==> Commits(p'))
            && (p.spc.SCheck? && IsValid(p.spc.cert, g.now) ==> Commits(p'))
            && (p.spc.SFirst? ==> p'.spc.SCheck? && p'.spc.cert == g.e.cert)
  {
  }

  /** Every state of every run: a live stream's handler can get by its own steps to the point where
      it has offered the current certificate and waits for the next; it has offered nothing
      only if it was waiting for a first certificate or looked at an invalid one. */
  lemma HandlerComesToRest(c: Config, s: State, i: nat) returns (t: State)
    requires Reachable(c, s) && i < |s.procs| && Attending(s.procs[i])
    ensures Leads(c, s, i, t) && t.g == s.g && i < |t.procs| && SdsResting(s.g.e, t.procs[i])
    ensures s.procs[i].log <= t.procs[i].log
    ensures t.procs[i].log == [] ==> s.procs[i].spc.SWait? || !IsValid(FirstLook(s.g.e, s.procs[i].spc), s.g.now)
  {
    InvReachable(c, s);
    t := SdsSettles(c, s, i);
  }

  // ---------------------------------------------------------------- no invalid first offer

  /** The handler has looked at no valid certificate and has not been woken. */
  predicate Unserved(g: Shared, p: Proc, seen: nat) {
    && p.Sds? && p.log == [] && g.e.version == seen && !IsValid(g.e.cert, g.now)
    && match p.spc
       case SFirst => true
       case SCheck(cert, v) => cert == g.e.cert && v == seen
       case SWait(v, _, w) => v == seen && (w.WParked? ==> w.ch !in g.e.closed) && (w.WReread? ==> w.viaCtx && p.done)
       case SWoke(_, _, viaCtx) => p.done
       case _ => false
  }

  lemma UnservedStep(c: Config, s: State, i: nat, a: Action, seen: nat)
    requires i < |s.procs| && Unserved(s.g, s.procs[i], seen) && EntryOk(s.g.e)
    requires Enabled(s, a) && OwnOrTick(a, i)
    ensures var t := Next(c, s, a);
            && t.g.e == s.g.e && i < |t.procs|
            && (Unserved(t.g, t.procs[i], seen) || t.procs[i].Leaving?)
  {
  }

  /** From its first look at an invalid certificate, nothing a handler does alone, however long it
      waits, makes it offer anything. */
  lemma {:induction false} InvalidIsNotOffered(c: Config, s: State, i: nat, acts: seq<Action>)
    requires i < |s.procs| && EntryOk(s.g.e) && Unserved(s.g, s.procs[i], s.g.e.version) && !s.procs[i].done
    requires Executes(c, s, acts) && forall k :: 0 <= k < |acts| ==> OwnOrTick(acts[k], i)
    ensures var t := After(c, s, acts);
            i < |t.procs| && t.procs[i].Sds? && t.procs[i].log == [] && !t.procs[i].spc.SOffer?
    decreases |acts|
  {
    if acts != [] {
      UnservedStep(c, s, i, acts[0], s.g.e.version);
      StreamLives(c, s, i, acts[0]);
      InvalidIsNotOffered(c, Next(c, s, acts[0]), i, acts[1..]);
    }
  }

  lemma StreamLives(c: Config, s: State, i: nat, a: Action)
    requires i < |s.procs| && s.procs[i].Sds? && !s.procs[i].done && Enabled(s, a) && OwnOrTick(a, i)
    requires Unserved(s.g, s.procs[i], s.g.e.version)
    ensures Next(c, s, a).procs[i].Sds? && !Next(c, s, a).procs[i].done
  {
  }

  // ---------------------------------------------------------------- one round of offer and ack

  /** From a fresh snapshot: the offer is recorded and awaits its ack; the ack leads to the wait. */
  lemma OfferAwaitsAck(c: Config, s: State, i: nat, log: seq<nat>, floor: nat) returns (t: State, u: State)
    requires i < |s.procs| && s.procs[i] == Sds(false, log, SSnap(floor))
    ensures Leads(c, s, i, t)
    ensures t.procs == s.procs[i := Sds(false, log + [s.g.e.version], SAck(s.g.e.cert, s.g.e.version))]
    ensures Leads(c, t, i, u) && u.g == t.g == s.g
    ensures u.procs == t.procs[i := Sds(false, log + [s.g.e.version], SWait(s.g.e.version, Some(s.g.e.cert), WBegin))]
  {
    t := SdsStep(c, s, i);
    u := SdsStep(c, t, i);
    LeadsOn(c, s, i, t, u);
    t := u;
    u := SdsStep(c, t, i);
  }

  /** A live handler's step between its snapshot and its wait. */
  lemma SdsStep(c: Config, s: State, i: nat) returns (t: State)
    requires i < |s.procs| && Attending(s.procs[i])
    requires s.procs[i].spc.SSnap? || s.procs[i].spc.SOffer? || s.procs[i].spc.SAck?
    ensures Leads(c, s, i, t) && t.g == s.g
    ensures t.procs == s.procs[i := SdsMove(s.g, false, s.procs[i].log, s.procs[i].spc, true)]
  {
    var a := ProcStep(i, true, "", "");
    Stay(c, s, i);
    Go(c, s, i, s, a);
    t := Next(c, s, a);
  }

  // ---------------------------------------------------------------- the HTTPS server

  predicate Serving(p: Proc) {
    p.Https? && !p.hpc.HJoin? && !p.hpc.HSpawn?
  }

  function WaitRank(e: Entry, seen: nat, w: WaitPc): nat {
    if w == WParked(e.updated) then 0
    else if w.WBegin? && seen == e.version then 1
    else if w.WParked? then 8 else 7
  }

  function HttpsRank(e: Entry, pc: HttpsPc): nat {
    match pc
    case HJoin | HSpawn(_) => 20
    case HFirst => 3
    case HCheck(_, _, seen) => if seen == e.version then 2 else 8
    case HWait(seen, w) => WaitRank(e, seen, w)
    case HWoke(_, v, _) => if v == e.version then 4 else 10
    case HSnap(seen) => if seen == e.version then 3 else 9
    case HServe(_, _, seen, w) => WaitRank(e, seen, w)
    case HRebind(_, v, _) => if v == e.version then 3 else 9
    case HSnapNext(seen) => if seen == e.version then 2 else 8
  }

  /** Parked on the current version, serving its certificate or waiting for a valid one. */
  predicate HttpsResting(e: Entry, p: Proc) {
    && p.Https?
    && match p.hpc
       case HServe(cert, _, seen, w) => seen == e.version && w == WParked(e.updated) && cert == e.cert
       case HWait(seen, w) => seen == e.version && w == WParked(e.updated)
       case _ => false
  }

  lemma HttpsCanGo(g: Shared, p: Proc)
    requires BroadcastOk(g.e, g.minted) && ProcOk(g.e, g.minted, g.root, p) && !g.root
    requires Serving(p) && HttpsRank(g.e, p.hpc) > 0
    ensures EnabledProc(g, p, true)
    ensures var p' := HttpsMove(g, p.hpc, true); Serving(p') && HttpsRank(g.e, p'.hpc) < HttpsRank(g.e, p.hpc)
  {
  }

  lemma HttpsGoes(c: Config, s: State, i: nat) returns (t: State)
    requires Inv(s) && i < |s.procs| && Serving(s.procs[i]) && HttpsRank(s.g.e, s.procs[i].hpc) > 0 && !s.g.root
    ensures t.g == s.g && Leads(c, s, i, t) && Inv(t)
    ensures t.procs == s.procs[i := HttpsMove(s.g, s.procs[i].hpc, true)]
    ensures Serving(t.procs[i]) && HttpsRank(s.g.e, t.procs[i].hpc) < HttpsRank(s.g.e, s.procs[i].hpc)
  {
    var a := ProcStep(i, true, "", "");
    assert ProcOk(s.g.e, s.g.minted, s.g.root, s.procs[i]);
    HttpsCanGo(s.g, s.procs[i]);
    Stay(c, s, i);
    Go(c, s, i, s, a);
    t := Next(c, s, a);
    InvStep(c, s, a);
    assert t.procs == s.procs[i := HttpsMove(s.g, s.procs[i].hpc, true)];
  }

  /** Waiting for a first valid certificate, or deciding to. */
  predicate NotServing(pc: HttpsPc) {
    pc.HFirst? || pc.HCheck? || pc.HWait? || pc.HWoke? || pc.HSnap?
  }

  lemma {:induction false} HttpsSettles(c: Config, s: State, i: nat) returns (t: State)
    requires Inv(s) && i < |s.procs| && Serving(s.procs[i]) && !s.g.root
    ensures Leads(c, s, i, t) && t.g == s.g && i < |t.procs| && HttpsResting(s.g.e, t.procs[i])
    ensures !NotServing(s.procs[i].hpc) ==> t.procs[i].hpc.HServe?
    decreases HttpsRank(s.g.e, s.procs[i].hpc)
  {
    assert ProcOk(s.g.e, s.g.minted, s.g.root, s.procs[i]);
    if HttpsRank(s.g.e, s.procs[i].hpc) == 0 {
      t := s;
      Stay(c, s, i);
    } else {
      var u := HttpsGoes(c, s, i);
      t := HttpsSettles(c, u, i);
      LeadsOn(c, s, i, u, t);
    }
  }

  /** Every state of every run before Stop: the HTTPS server can get by its own steps to the point
      where it serves the entry's current certificate, or, before it has served any, waits
      for one; and once it has served one it goes on serving. */
  lemma ServerComesToRest(c: Config, s: State, i: nat) returns (t: State)
    requires Reachable(c, s) && i < |s.procs| && Serving(s.procs[i]) && !s.g.root
    ensures Leads(c, s, i, t) && t.g == s.g && i < |t.procs| && HttpsResting(s.g.e, t.procs[i])
    ensures !NotServing(s.procs[i].hpc) ==> t.procs[i].hpc.HServe?
  {
    InvReachable(c, s);
    t := HttpsSettles(c, s, i);
  }

  /** The first certificate served was valid when the server decided to serve it, and a valid one
      is served at once. */
  lemma FirstServedIsValid(c: Config, s: State, i: nat, cert: Cert, ver: nat, seen: nat, a: Action)
    requires i < |s.procs| && s.procs[i] == Https(HCheck(cert, ver, seen)) && !s.g.root
    requires a.ProcStep? && a.i == i
    ensures Enabled(s, a)
    ensures Next(c, s, a).procs[i].hpc.HServe? <==> s.g.now < cert.validBefore
    ensures Next(c, s, a).procs[i].hpc.HServe? ==> Next(c, s, a).procs[i].hpc.cert == cert
  {
  }
}
