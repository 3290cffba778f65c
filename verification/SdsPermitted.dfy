/** The allow-list on an SDS stream: who is served, and when the stream is refused. */
module SdsPermitted {
  import opened Base
  import opened EntryModel
  import opened SdsModel
  import opened SdsProof
  import opened SdsProgress
  import opened SdsConvergence

  // ---------------------------------------------------------------- invariant

  ghost predicate AllPermitted(c: Config, names: seq<Name>) {
    forall i :: 0 <= i < |names| ==> names[i] in c.permitted
  }

  /** Every name of the client's is permitted. */
  ghost predicate Welcome(c: Config) {
    AllPermitted(c, c.names)
  }

  /** The names the receive loop has passed are the first ones of the client's, and permitted. */
  ghost predicate CheckedOk(c: Config, d: Dispatcher) {
    match d
    case DRecv => true
    case DNames(_, todo, fresh_) => AllPermitted(c, fresh_) && (fresh_ != [] ==> fresh_ + todo == c.names)
    case DSpawn(_) => true
    case DError(_) => !Welcome(c)
  }

  /** The first request is being looked at, or has been. */
  ghost predicate Admitted(c: Config, s: State) {
    && CheckedOk(c, s.disp)
    && (s.disp.DNames? && s.disp.fresh_ == [] && s.disp.todo != [] && !Dispatched(s, s.disp.todo[0]) ==>
          s.disp.todo == c.names)
    && (s.disp.DSpawn? && s.disp.fresh_ != [] ==> Welcome(c))
    && (forall n :: n in s.packs && s.packs[n].turn != NotYet ==> Welcome(c))
  }

  /** What the receive loop does with a name that has no handler. */
  lemma CheckedNameShape(c: Config, s: State)
    requires Enabled(s, ServerName) && s.domainSets == Some(NameSet(c)) && s.disp.todo != []
    requires !Dispatched(s, s.disp.todo[0]) && s.disp.todo[0] in NameSet(c)
    ensures Next(c, s, ServerName) ==
            s.(disp := if s.disp.todo[0] in c.permitted
                       then DNames(s.disp.req, s.disp.todo[1..], s.disp.fresh_ + [s.disp.todo[0]])
                       else DError(NotPermitted))
  {
  }

  /** The receive loop finds a name without a handler. */
  lemma NewNameAdmits(c: Config, s: State)
    requires Messages(c, s) && Admitted(c, s) && Enabled(s, ServerName)
    requires s.disp.todo != [] && !Dispatched(s, s.disp.todo[0])
    ensures Admitted(c, Next(c, s, ServerName))
  {
    var fresh_, todo := s.disp.fresh_, s.disp.todo;
    assert fresh_ + todo == c.names;
    assert c.names[|fresh_|] == todo[0] && todo[0] in NameSet(c);
    Unhandled(c, s);
    CheckedNameShape(c, s);
    assert fresh_ + [todo[0]] + todo[1..] == c.names;
  }

  lemma NamesDoneAdmits(c: Config, s: State)
    requires Admitted(c, s) && Enabled(s, ServerName) && s.disp.todo == []
    ensures Admitted(c, Next(c, s, ServerName))
  {
    assert s.disp.fresh_ + s.disp.todo == s.disp.fresh_;
    assert Next(c, s, ServerName) == s.(disp := DSpawn(s.disp.fresh_));
  }

  /** While new names are looked at, the first request has been read. */
  lemma Unhandled(c: Config, s: State)
    requires Messages(c, s) && s.disp.DNames?
    ensures s.domainSets == Some(NameSet(c))
  {
  }

  lemma AckAdmits(c: Config, s: State)
    requires Inv(c, s) && Admitted(c, s) && Enabled(s, ServerName)
    requires s.disp.todo != [] && Dispatched(s, s.disp.todo[0])
    ensures Admitted(c, Next(c, s, ServerName))
  {
    AckMeetsHandler(c, s);
    var n := s.disp.todo[0];
    assert s.packs[n].turn == ServerRecv;
  }

  lemma ReceiveAdmits(c: Config, s: State)
    requires ConfigOk(c) && Inv(c, s) && Admitted(c, s) && Enabled(s, ServerReceives)
    ensures Admitted(c, Next(c, s, ServerReceives))
  {
    if s.domainSets.Some? {
      assert AckAt(s.packs, s.c2s[0], OnC2S);
      AckIsTurned(s);
      AckIsDispatched(c, s);
    } else {
      assert s.c2s[0] == Hello(c);
      HelloIsFresh(c, s);
      HelloReadShape(c, s);
    }
  }

  lemma AckIsDispatched(c: Config, s: State)
    requires PacksOk(c, s.packs) && s.c2s != [] && AckAt(s.packs, s.c2s[0], OnC2S)
    ensures Dispatched(s, s.c2s[0].names[0])
  {
  }

  lemma SpawnAdmits(c: Config, s: State, i: nat)
    requires Inv(c, s) && Admitted(c, s) && Enabled(s, ServerSpawns(i))
    ensures Admitted(c, Next(c, s, ServerSpawns(i)))
  {
  }

  /** Steps on the response path, of the senders and of the handlers leave the receive loop alone
      and give no pack its first turn. */
  lemma OtherAdmits(c: Config, s: State, a: Action)
    requires Inv(c, s) && Admitted(c, s) && Enabled(s, a)
    requires !a.ServerReceives? && !a.ServerName? && !a.ServerSpawns?
    ensures Admitted(c, Next(c, s, a))
  {
    match a {
      case Renewed(n, cert) => OnePackTurns(s, Next(c, s, a), n, RenewMove(s.packs[n], cert));
      case ClientHello => assert Next(c, s, a).packs == s.packs;
      case ServerSends | ClientReceives | ClientDispatches | ClientSends => MessageTurns(c, s, a);
      case _ => HandlerTurns(c, s, a);
    }
    SameTurnsAdmit(c, s, Next(c, s, a));
  }

  lemma SameTurnsAdmit(c: Config, s: State, s': State)
    requires Admitted(c, s) && SameTurns(s, s')
    ensures Admitted(c, s')
  {
    forall n | n in s'.packs && s'.packs[n].turn != NotYet ensures Welcome(c) {
      assert SameStart(s.packs[n], s'.packs[n]);
    }
    forall n ensures Dispatched(s', n) <==> Dispatched(s, n) {
      assert n in s.packs ==> SameStart(s.packs[n], s'.packs[n]);
    }
  }

  /** The step gives no pack its first turn and takes none away. */
  ghost predicate SameTurns(s: State, s': State) {
    && s'.disp == s.disp && s'.packs.Keys == s.packs.Keys
    && forall n :: n in s.packs ==> SameStart(s.packs[n], s'.packs[n])
  }

  predicate SameStart(p: Pack, p': Pack) {
    (p'.turn == NotYet <==> p.turn == NotYet) && (p'.h.HNone? <==> p.h.HNone?)
  }

  lemma OnePackTurns(s: State, s': State, n: Name, p: Pack)
    requires n in s.packs && s'.packs == s.packs[n := p] && s'.disp == s.disp && SameStart(s.packs[n], p)
    ensures SameTurns(s, s')
  {
  }

  lemma HandlerTurns(c: Config, s: State, a: Action)
    requires Inv(c, s) && OfPack(a) && Enabled(s, a)
    ensures SameTurns(s, Next(c, s, a))
  {
    PackStepShape(c, s, a);
    assert PackOk(a.n, s.packs[a.n]);
    OnePackTurns(s, Next(c, s, a), a.n, MovedPack(s.packs[a.n], a));
  }

  lemma MessageTurns(c: Config, s: State, a: Action)
    requires Messages(c, s) && Enabled(s, a)
    requires a.ServerSends? || a.ClientReceives? || a.ClientDispatches? || a.ClientSends?
    ensures SameTurns(s, Next(c, s, a))
  {
    match a
    case ServerSends =>
      var n := s.out.value.name;
      OnePackTurns(s, Next(c, s, a), n, s.packs[n].(turn := OnS2C));
    case ClientReceives =>
      assert RespAt(s.packs, s.s2c[0], OnS2C);
      var n := s.s2c[0].name;
      OnePackTurns(s, Next(c, s, a), n, s.packs[n].(turn := ClientRecv));
    case ClientDispatches =>
      var r := s.recv.r;
      OnePackTurns(s, Next(c, s, a), r.name, s.packs[r.name].(k := KPut(r), turn := ClientHandling));
    case ClientSends =>
      assert AckAt(s.packs, s.send.q, ClientSender);
      var n := s.send.q.names[0];
      OnePackTurns(s, Next(c, s, a), n, s.packs[n].(turn := OnC2S));
  }

  lemma {:induction false} AdmittedAlong(c: Config, s: State, acts: seq<Action>)
    requires ConfigOk(c) && Inv(c, s) && Admitted(c, s) && Executes(c, s, acts)
    ensures Admitted(c, After(c, s, acts))
    decreases |acts|
  {
    if acts != [] {
      var a := acts[0];
      match a {
        case ServerReceives => ReceiveAdmits(c, s);
        case ServerName =>
          if s.disp.todo == [] {
            NamesDoneAdmits(c, s);
          } else if Dispatched(s, s.disp.todo[0]) {
            AckAdmits(c, s);
          } else {
            NewNameAdmits(c, s);
          }
        case ServerSpawns(i) => SpawnAdmits(c, s, i);
        case _ => OtherAdmits(c, s, a);
      }
      InvStep(c, s, a);
      AdmittedAlong(c, Next(c, s, a), acts[1..]);
    }
  }

  lemma AdmittedReachable(c: Config, s: State)
    requires ConfigOk(c) && Reachable(c, s)
    ensures Inv(c, s) && Admitted(c, s)
  {
    InvReachable(c, s);
    var first: map<Name, Cert>, acts :|
      first.Keys == NameSet(c) && Executes(c, Init(c, first), acts) && After(c, Init(c, first), acts) == s;
    InitOk(c, first);
    AdmittedAlong(c, Init(c, first), acts);
  }

  // ---------------------------------------------------------------- theorems

  /** Something of this pack exists on the stream: a handler, an offer, a response or a delivery. */
  predicate Served(p: Pack) {
    !p.h.HNone? || p.offered != [] || !p.k.KIdle? || p.delivered != []
  }

  /** Nobody is served unless everybody may be. The server checks all names of the first request
      before it gives any of them a handler, so on a stream with one forbidden name no
      certificate is ever offered, and a stream is refused only for a forbidden name. */
  lemma ServedOnlyIfAllPermitted(c: Config, s: State, n: Name)
    requires ConfigOk(c) && Reachable(c, s)
    ensures n in s.packs && Served(s.packs[n]) ==> NameSet(c) <= c.permitted
    ensures s.disp.DError? ==> !(NameSet(c) <= c.permitted)
  {
    AdmittedReachable(c, s);
    WelcomeIsSubset(c);
    if n in s.packs {
      assert PackOk(n, s.packs[n]);
    }
  }

  lemma WelcomeIsSubset(c: Config)
    ensures Welcome(c) <==> NameSet(c) <= c.permitted
  {
    if NameSet(c) <= c.permitted {
      forall i | 0 <= i < |c.names| ensures c.names[i] in c.permitted {
        assert c.names[i] in NameSet(c);
      }
    }
  }

  /** Where a stream ends. Under every schedule its steps are bounded by its work and the renewals,
      and once nothing can move it is refused exactly if some name is forbidden; then nothing
      was ever offered, and otherwise every pack is at rest on the current certificate. */
  lemma SettlesByPermission(c: Config, s: State, acts: seq<Action>)
    requires ConfigOk(c) && Reachable(c, s) && Executes(c, s, acts)
    ensures TakenOk(s.packs) && |acts| <= StreamWork(c, s) + (ROUND + 1) * Renewals(acts)
    ensures var t := After(c, s, acts); Quiescent(t) ==>
              && (t.disp.DError? <==> !(NameSet(c) <= c.permitted))
              && (NameSet(c) <= c.permitted ==> forall n :: n in t.packs ==> AtRest(t.packs[n]))
              && (!(NameSet(c) <= c.permitted) ==> forall n :: n in t.packs ==> !Served(t.packs[n]))
  {
    Converges(c, s, acts);
    ReachableAfter(c, s, acts);
    var t := After(c, s, acts);
    forall n ensures n in t.packs && Served(t.packs[n]) ==> NameSet(c) <= c.permitted {
      ServedOnlyIfAllPermitted(c, t, n);
    }
    ServedOnlyIfAllPermitted(c, t, "");
    if Quiescent(t) && !t.disp.DError? && c.names != [] {
      InvReachable(c, t);
      assert c.names[0] in NameSet(c);
      assert AtRest(t.packs[c.names[0]]);
    }
  }
}
