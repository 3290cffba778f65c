/** Between two renewals an SDS stream takes a bounded number of steps, whatever the schedule,
    and so comes to rest on the current certificates. */
module SdsConvergence {
  import opened EntryModel
  import opened SdsModel
  import opened SdsProof
  import opened SdsProgress

  // ---------------------------------------------------------------- the measure

  /** The cost of one more round of offer, delivery and ack. */
  const ROUND := 14

  /** Steps left in the pack's current round. */
  function RoundWork(p: Pack): nat {
    match p.turn
    case NotYet => ROUND
    case Server => if p.h.HStart? then ROUND else if p.h.HOffer? then 13 else 0
    case ServerSender => 12
    case OnS2C => 11
    case ClientRecv => 10
    case ClientHandling => if p.k.KPut? then 9 else 7
    case ClientSender => 6
    case OnC2S => 5
    case ServerRecv => 0
  }

  /** The handler's version is behind the entry's. */
  predicate Behind(p: Pack) {
    match p.h
    case HFirst(v, _) => v < p.version
    case HOffer(v, _) => v < p.version
    case HAwait(v, _) => v < p.version
    case HWait(v) => v < p.version
    case _ => false
  }

  function PackWork(p: Pack): nat
    requires p.taken <= |p.delivered|
  {
    RoundWork(p) + (|p.delivered| - p.taken) + if Behind(p) then ROUND else 0
  }

  ghost predicate TakenOk(m: map<Name, Pack>) {
    forall n :: n in m ==> m[n].taken <= |m[n].delivered|
  }

  ghost function PacksWork(names: seq<Name>, m: map<Name, Pack>): nat
    requires TakenOk(m)
  {
    if names == [] then 0
    else (if names[0] in m then PackWork(m[names[0]]) else 0) + PacksWork(names[1..], m)
  }

  /** What the receive loop still does with the request it holds. */
  function DispWork(d: Dispatcher): nat {
    match d
    case DRecv => 0
    case DNames(_, todo, fresh_) => 2 * |todo| + |fresh_| + 2
    case DSpawn(fresh_) => |fresh_| + 1
    case DError(_) => 0
  }

  /** What the first request still costs. */
  function HelloWork(c: Config, s: State): nat {
    if s.send == SHello then 2 * |c.names| + 4
    else if s.domainSets.None? then 2 * |c.names| + 3
    else 0
  }

  ghost function StreamWork(c: Config, s: State): nat
    requires TakenOk(s.packs)
  {
    PacksWork(c.names, s.packs) + DispWork(s.disp) + HelloWork(c, s)
  }

  // ---------------------------------------------------------------- one pack of many

  lemma {:induction false} AbsentPack(names: seq<Name>, m: map<Name, Pack>, n: Name, p: Pack)
    requires TakenOk(m) && p.taken <= |p.delivered| && n !in names
    ensures PacksWork(names, m[n := p]) == PacksWork(names, m)
  {
    if names != [] {
      AbsentPack(names[1..], m, n, p);
    }
  }

  /** Changing one pack changes the sum by exactly the change of that pack's work. */
  lemma {:induction false} OnePack(names: seq<Name>, m: map<Name, Pack>, n: Name, p: Pack)
    requires TakenOk(m) && p.taken <= |p.delivered| && n in names && n in m
    requires forall i, j :: 0 <= i < j < |names| ==> names[i] != names[j]
    ensures PacksWork(names, m[n := p]) == PacksWork(names, m) - PackWork(m[n]) + PackWork(p)
  {
    if names[0] == n {
      AbsentPack(names[1..], m, n, p);
    } else {
      OnePack(names[1..], m, n, p);
    }
  }

  lemma PacksTaken(c: Config, m: map<Name, Pack>)
    requires PacksOk(c, m)
    ensures TakenOk(m)
  {
    forall n | n in m ensures m[n].taken <= |m[n].delivered| {
      assert PackOk(n, m[n]);
    }
  }

  /** The stream's work after a step that replaces one pack. */
  lemma StepOnPack(c: Config, s: State, s': State, n: Name, p: Pack)
    requires ConfigOk(c) && PacksOk(c, s.packs) && n in s.packs && p.taken <= |p.delivered|
    requires s'.packs == s.packs[n := p] && TakenOk(s.packs) && TakenOk(s'.packs)
    ensures PacksWork(c.names, s'.packs) == PacksWork(c.names, s.packs) - PackWork(s.packs[n]) + PackWork(p)
  {
    assert n in NameSet(c);
    OnePack(c.names, s.packs, n, p);
  }

  // ---------------------------------------------------------------- every step but a renewal drops

  /** Steps of one pack's handlers or of the watcher. */
  function MovedPack(p: Pack, a: Action): Pack
    requires a.HandlerOffers? ==> p.h.HOffer?
    requires a.ClientPuts? ==> p.k.KPut?
  {
    match a
    case HandlerStarts(_, now) => StartMove(p, now)
    case HandlerReady(_) => ReadyMove(p)
    case HandlerOffers(_) => p.(h := HAwait(p.h.v, p.h.cert), turn := ServerSender, offered := p.offered + [p.h.v])
    case ClientPuts(_) => p.(k := KAck(p.k.r), delivered := p.delivered + [Got(p.k.r.idx, p.k.r.cert)])
    case ClientAcks(_) => p.(k := KIdle, turn := ClientSender)
    case WatcherTakes(_) => TakeMove(p)
    case _ => p
  }

  predicate OfPack(a: Action) {
    a.HandlerStarts? || a.HandlerReady? || a.HandlerOffers? || a.ClientPuts? || a.ClientAcks? || a.WatcherTakes?
  }

  lemma PackDrops(s: State, a: Action)
    requires OfPack(a) && Enabled(s, a) && PackOk(a.n, s.packs[a.n])
    ensures var p' := MovedPack(s.packs[a.n], a);
            p'.taken <= |p'.delivered| && PackWork(p') < PackWork(s.packs[a.n])
  {
  }

  lemma PackStepShape(c: Config, s: State, a: Action)
    requires OfPack(a) && Enabled(s, a)
    ensures Next(c, s, a).packs == s.packs[a.n := MovedPack(s.packs[a.n], a)]
    ensures Next(c, s, a).disp == s.disp && HelloWork(c, Next(c, s, a)) == HelloWork(c, s)
  {
  }

  lemma PackStepDrops(c: Config, s: State, a: Action)
    requires ConfigOk(c) && PacksOk(c, s.packs) && OfPack(a) && Enabled(s, a)
    ensures TakenOk(s.packs) && TakenOk(Next(c, s, a).packs)
    ensures StreamWork(c, Next(c, s, a)) < StreamWork(c, s)
  {
    PacksTaken(c, s.packs);
    assert PackOk(a.n, s.packs[a.n]);
    PackDrops(s, a);
    PackStepShape(c, s, a);
    StepOnPack(c, s, Next(c, s, a), a.n, MovedPack(s.packs[a.n], a));
  }

  /** A message passes from one loop or wire to the next. */
  lemma PassDrops(c: Config, s: State, s': State, n: Name, p: Pack)
    requires ConfigOk(c) && PacksOk(c, s.packs) && n in s.packs && s'.packs == s.packs[n := p]
    requires p.delivered == s.packs[n].delivered && p.taken == s.packs[n].taken && Behind(p) == Behind(s.packs[n])
    requires RoundWork(p) + DispWork(s'.disp) < RoundWork(s.packs[n]) + DispWork(s.disp)
    requires HelloWork(c, s') == HelloWork(c, s)
    ensures TakenOk(s.packs) && TakenOk(s'.packs)
    ensures StreamWork(c, s') < StreamWork(c, s)
  {
    PacksTaken(c, s.packs);
    StepOnPack(c, s, s', n, p);
  }

  lemma ServerSendDrops(c: Config, s: State)
    requires ConfigOk(c) && PacksOk(c, s.packs) && ResponsesOk(s) && Enabled(s, ServerSends)
    ensures TakenOk(s.packs) && TakenOk(Next(c, s, ServerSends).packs)
    ensures StreamWork(c, Next(c, s, ServerSends)) < StreamWork(c, s)
  {
    var n := s.out.value.name;
    PassDrops(c, s, Next(c, s, ServerSends), n, s.packs[n].(turn := OnS2C));
  }

  lemma ReceiveDrops(c: Config, s: State)
    requires ConfigOk(c) && PacksOk(c, s.packs) && ResponsesOk(s) && Enabled(s, ClientReceives)
    ensures TakenOk(s.packs) && TakenOk(Next(c, s, ClientReceives).packs)
    ensures StreamWork(c, Next(c, s, ClientReceives)) < StreamWork(c, s)
  {
    assert RespAt(s.packs, s.s2c[0], OnS2C);
    var n := s.s2c[0].name;
    PassDrops(c, s, Next(c, s, ClientReceives), n, s.packs[n].(turn := ClientRecv));
  }

  lemma DispatchDrops(c: Config, s: State)
    requires ConfigOk(c) && PacksOk(c, s.packs) && ResponsesOk(s) && Enabled(s, ClientDispatches)
    ensures TakenOk(s.packs) && TakenOk(Next(c, s, ClientDispatches).packs)
    ensures StreamWork(c, Next(c, s, ClientDispatches)) < StreamWork(c, s)
  {
    var r := s.recv.r;
    PassDrops(c, s, Next(c, s, ClientDispatches), r.name, s.packs[r.name].(k := KPut(r), turn := ClientHandling));
  }

  lemma SendDrops(c: Config, s: State)
    requires ConfigOk(c) && PacksOk(c, s.packs) && Enabled(s, ClientSends) && AckAt(s.packs, s.send.q, ClientSender)
    ensures TakenOk(s.packs) && TakenOk(Next(c, s, ClientSends).packs)
    ensures StreamWork(c, Next(c, s, ClientSends)) < StreamWork(c, s)
  {
    var q := s.send.q;
    PassDrops(c, s, Next(c, s, ClientSends), q.names[0], s.packs[q.names[0]].(turn := OnC2S));
  }

  lemma AckReadDrops(c: Config, s: State)
    requires ConfigOk(c) && PacksOk(c, s.packs) && Enabled(s, ServerReceives) && s.domainSets.Some?
    requires AckAt(s.packs, s.c2s[0], OnC2S)
    ensures TakenOk(s.packs) && TakenOk(Next(c, s, ServerReceives).packs)
    ensures StreamWork(c, Next(c, s, ServerReceives)) < StreamWork(c, s)
  {
    var q := s.c2s[0];
    AckIsTurned(s);
    PassDrops(c, s, Next(c, s, ServerReceives), q.names[0], s.packs[q.names[0]].(turn := ServerRecv));
  }

  lemma AckDrops(c: Config, s: State)
    requires ConfigOk(c) && Inv(c, s) && Enabled(s, ServerName) && s.disp.todo != [] && Dispatched(s, s.disp.todo[0])
    ensures TakenOk(s.packs) && TakenOk(Next(c, s, ServerName).packs)
    ensures StreamWork(c, Next(c, s, ServerName)) < StreamWork(c, s)
  {
    AckMeetsHandler(c, s);
    var n := s.disp.todo[0];
    PassDrops(c, s, Next(c, s, ServerName), n, s.packs[n].(h := HWait(s.packs[n].h.v), turn := Server));
  }

  lemma SpawnDrops(c: Config, s: State, i: nat)
    requires ConfigOk(c) && PacksOk(c, s.packs) && DispOk(s.packs, s.disp) && Enabled(s, ServerSpawns(i))
    ensures TakenOk(s.packs) && TakenOk(Next(c, s, ServerSpawns(i)).packs)
    ensures StreamWork(c, Next(c, s, ServerSpawns(i))) < StreamWork(c, s)
  {
    PacksTaken(c, s.packs);
    if s.disp.fresh_ != [] {
      var n := s.disp.fresh_[i];
      assert PackOk(n, s.packs[n]);
      PassDrops(c, s, Next(c, s, ServerSpawns(i)), n, s.packs[n].(h := HStart, turn := Server));
    }
  }

  /** The first request is sent and read. */
  lemma HelloDrops(c: Config, s: State, a: Action)
    requires ConfigOk(c) && PacksOk(c, s.packs) && RequestsOk(c, s) && Enabled(s, a)
    requires a.ClientHello? || (a.ServerReceives? && s.domainSets.None?)
    ensures TakenOk(s.packs) && TakenOk(Next(c, s, a).packs)
    ensures StreamWork(c, Next(c, s, a)) < StreamWork(c, s)
  {
    PacksTaken(c, s.packs);
    if a.ServerReceives? {
      assert s.c2s[0] == Hello(c);
      HelloIsFresh(c, s);
      HelloReadShape(c, s);
    }
    assert Next(c, s, a).packs == s.packs;
  }

  /** The receive loop looks at a name without a handler, or has looked at all names. */
  lemma NewNameDrops(c: Config, s: State)
    requires PacksOk(c, s.packs) && Enabled(s, ServerName) && (s.disp.todo == [] || !Dispatched(s, s.disp.todo[0]))
    ensures TakenOk(s.packs) && TakenOk(Next(c, s, ServerName).packs)
    ensures StreamWork(c, Next(c, s, ServerName)) < StreamWork(c, s)
  {
    PacksTaken(c, s.packs);
    NewNameShape(c, s);
  }

  lemma NewNameShape(c: Config, s: State)
    requires Enabled(s, ServerName) && (s.disp.todo == [] || !Dispatched(s, s.disp.todo[0]))
    ensures var s' := Next(c, s, ServerName);
            s'.packs == s.packs && DispWork(s'.disp) < DispWork(s.disp) && HelloWork(c, s') == HelloWork(c, s)
  {
  }

  /** A renewal adds at most one round. */
  lemma RenewalAdds(c: Config, s: State, n: Name, cert: Cert)
    requires ConfigOk(c) && PacksOk(c, s.packs) && n in s.packs
    ensures TakenOk(s.packs) && TakenOk(Next(c, s, Renewed(n, cert)).packs)
    ensures StreamWork(c, Next(c, s, Renewed(n, cert))) <= StreamWork(c, s) + ROUND
  {
    PacksTaken(c, s.packs);
    RenewedWork(s.packs[n], cert);
    StepOnPack(c, s, Next(c, s, Renewed(n, cert)), n, RenewMove(s.packs[n], cert));
  }

  lemma RenewedWork(p: Pack, cert: Cert)
    requires p.taken <= |p.delivered|
    ensures PackWork(RenewMove(p, cert)) <= PackWork(p) + ROUND
  {
  }

  /** Every step other than a renewal strictly decreases the work. */
  lemma StepDrops(c: Config, s: State, a: Action)
    requires ConfigOk(c) && Inv(c, s) && Enabled(s, a)
    ensures TakenOk(s.packs) && TakenOk(Next(c, s, a).packs)
    ensures !a.Renewed? ==> StreamWork(c, Next(c, s, a)) < StreamWork(c, s)
    ensures a.Renewed? ==> StreamWork(c, Next(c, s, a)) <= StreamWork(c, s) + ROUND
  {
    match a
    case Renewed(n, cert) => RenewalAdds(c, s, n, cert);
    case ClientHello => HelloDrops(c, s, a);
    case ServerReceives =>
      if s.domainSets.Some? {
        assert AckAt(s.packs, s.c2s[0], OnC2S);
        AckReadDrops(c, s);
      } else {
        HelloDrops(c, s, a);
      }
    case ServerName =>
      if s.disp.todo != [] && Dispatched(s, s.disp.todo[0]) { AckDrops(c, s); } else { NewNameDrops(c, s); }
    case ServerSpawns(i) => SpawnDrops(c, s, i);
    case ServerSends => ServerSendDrops(c, s);
    case ClientReceives => ReceiveDrops(c, s);
    case ClientDispatches => DispatchDrops(c, s);
    case ClientSends =>
      assert AckAt(s.packs, s.send.q, ClientSender);
      SendDrops(c, s);
    case _ => PackStepDrops(c, s, a);
  }

  // ---------------------------------------------------------------- whole runs

  function Renewals(acts: seq<Action>): nat {
    if acts == [] then 0 else (if acts[0].Renewed? then 1 else 0) + Renewals(acts[1..])
  }

  lemma {:induction false} StepsBounded(c: Config, s: State, acts: seq<Action>)
    requires ConfigOk(c) && Inv(c, s) && Executes(c, s, acts) && TakenOk(s.packs)
    ensures |acts| <= StreamWork(c, s) + (ROUND + 1) * Renewals(acts)
    decreases |acts|
  {
    if acts != [] {
      StepDrops(c, s, acts[0]);
      InvStep(c, s, acts[0]);
      StepsBounded(c, Next(c, s, acts[0]), acts[1..]);
    }
  }

  /** Every stream, under every schedule: it takes at most as many steps as its work plus a
      fixed number for every renewal; so without renewals it cannot go on for ever, and where
      it stops, unless a pack was refused, every client holds the current certificates. */
  lemma Converges(c: Config, s: State, acts: seq<Action>)
    requires ConfigOk(c) && Reachable(c, s) && Executes(c, s, acts)
    ensures TakenOk(s.packs) && |acts| <= StreamWork(c, s) + (ROUND + 1) * Renewals(acts)
    ensures var t := After(c, s, acts);
            Quiescent(t) && !t.disp.DError? ==> forall n :: n in t.packs ==> AtRest(t.packs[n])
  {
    InvReachable(c, s);
    PacksTaken(c, s.packs);
    StepsBounded(c, s, acts);
    ReachableAfter(c, s, acts);
    var t := After(c, s, acts);
    if Quiescent(t) && !t.disp.DError? {
      RestsOnlyWhenCurrent(c, t);
    }
  }

  lemma {:induction false} ExecutesConcat(c: Config, s: State, p: seq<Action>, q: seq<Action>)
    requires Executes(c, s, p) && Executes(c, After(c, s, p), q)
    ensures Executes(c, s, p + q) && After(c, s, p + q) == After(c, After(c, s, p), q)
    decreases |p|
  {
    if p == [] {
      assert p + q == q;
    } else {
      assert (p + q)[1..] == p[1..] + q;
      ExecutesConcat(c, Next(c, s, p[0]), p[1..], q);
    }
  }

  lemma ReachableNext(c: Config, s: State, a: Action)
    requires Reachable(c, s) && Enabled(s, a)
    ensures Reachable(c, Next(c, s, a))
  {
    var t := Next(c, s, a);
    assert [a][1..] == [];
    assert Executes(c, t, []) && After(c, t, []) == t;
    assert Executes(c, s, [a]) && After(c, s, [a]) == t;
    ReachableAfter(c, s, [a]);
  }

  lemma ReachableAfter(c: Config, s: State, acts: seq<Action>)
    requires Reachable(c, s) && Executes(c, s, acts)
    ensures Reachable(c, After(c, s, acts))
  {
    var first: map<Name, Cert>, pre :|
      first.Keys == NameSet(c) && Executes(c, Init(c, first), pre) && After(c, Init(c, first), pre) == s;
    ExecutesConcat(c, Init(c, first), pre, acts);
  }
}
