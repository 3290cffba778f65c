/** The SDS stream never deadlocks, and when it comes to rest every client holds the
    server's current certificates. */
module SdsProgress {
  import opened EntryModel
  import opened SdsModel
  import opened SdsProof

  // ---------------------------------------------------------------- messages are where they should be

  ghost predicate OnWireTo(s2c: seq<Resp>, n: Name) {
    exists i :: 0 <= i < |s2c| && s2c[i].name == n
  }

  ghost predicate OnWireFrom(c2s: seq<Req>, n: Name) {
    exists i :: 0 <= i < |c2s| && c2s[i].names == [n]
  }

  /** The receive loop has yet to give this pack a handler. */
  predicate Awaited(d: Dispatcher, n: Name) {
    match d
    case DNames(_, todo, fresh_) => n in todo || n in fresh_
    case DSpawn(fresh_) => n in fresh_
    case DRecv => false
    case DError(_) => true
  }

  /** The message the pack's turn speaks of exists (the handlers' own turns hold none). */
  ghost predicate Located(s: State, n: Name, t: Turn) {
    match t
    case NotYet => s.domainSets.None? || Awaited(s.disp, n)
    case Server | ClientHandling => true
    case ServerSender => s.out.Some? && s.out.value.name == n
    case OnS2C => OnWireTo(s.s2c, n)
    case ClientRecv => s.recv.RHas? && s.recv.r.name == n
    case ClientSender => s.send.SHas? && s.send.q.names == [n]
    case OnC2S => OnWireFrom(s.c2s, n)
    case ServerRecv => s.disp.DNames? && n in s.disp.todo
  }

  ghost predicate AllLocated(s: State) {
    forall n :: n in s.packs ==> Located(s, n, s.packs[n].turn)
  }

  // ---------------------------------------------------------------- preservation

  /** Only packs change, and each keeps its turn or passes it to a handler. */
  lemma LocatedQuiet(c: Config, s: State, a: Action)
    requires Inv(c, s) && AllLocated(s) && Enabled(s, a)
    requires a.Renewed? || a.WatcherTakes? || a.HandlerStarts? || a.HandlerReady? || a.ClientPuts?
    ensures AllLocated(Next(c, s, a))
  {
    var s' := Next(c, s, a);
    forall n | n in s'.packs ensures Located(s', n, s'.packs[n].turn) {
      assert Located(s, n, s.packs[n].turn);
    }
  }

  lemma LocatedOffers(c: Config, s: State, x: Name)
    requires Messages(c, s) && AllLocated(s) && Enabled(s, HandlerOffers(x))
    ensures AllLocated(Next(c, s, HandlerOffers(x)))
  {
    var s' := Next(c, s, HandlerOffers(x));
    forall n | n in s'.packs ensures Located(s', n, s'.packs[n].turn) {
      assert n != x ==> Located(s, n, s.packs[n].turn);
    }
  }

  lemma LocatedServerSends(c: Config, s: State)
    requires Messages(c, s) && AllLocated(s) && Enabled(s, ServerSends)
    ensures AllLocated(Next(c, s, ServerSends))
  {
    var s' := Next(c, s, ServerSends);
    var r := s.out.value;
    assert s'.s2c[|s.s2c|] == r;
    forall n | n in s'.packs ensures Located(s', n, s'.packs[n].turn) {
      assert Located(s, n, s.packs[n].turn);
      if n != r.name && s.packs[n].turn == OnS2C {
        var i :| 0 <= i < |s.s2c| && s.s2c[i].name == n;
        assert s'.s2c[i].name == n;
      }
    }
  }

  lemma LocatedClientReceives(c: Config, s: State)
    requires Messages(c, s) && AllLocated(s) && Enabled(s, ClientReceives)
    ensures AllLocated(Next(c, s, ClientReceives))
  {
    var s' := Next(c, s, ClientReceives);
    assert RespAt(s.packs, s.s2c[0], OnS2C);
    forall n | n in s'.packs ensures Located(s', n, s'.packs[n].turn) {
      assert Located(s, n, s.packs[n].turn);
      if n != s.s2c[0].name && s.packs[n].turn == OnS2C {
        var i :| 0 <= i < |s.s2c| && s.s2c[i].name == n;
        assert s'.s2c[i - 1].name == n;
      }
    }
  }

  lemma LocatedClientDispatches(c: Config, s: State)
    requires Messages(c, s) && AllLocated(s) && Enabled(s, ClientDispatches)
    ensures AllLocated(Next(c, s, ClientDispatches))
  {
    var s' := Next(c, s, ClientDispatches);
    forall n | n in s'.packs ensures Located(s', n, s'.packs[n].turn) {
      assert Located(s, n, s.packs[n].turn);
    }
  }

  lemma LocatedClientAcks(c: Config, s: State, x: Name)
    requires Messages(c, s) && AllLocated(s) && Enabled(s, ClientAcks(x))
    ensures AllLocated(Next(c, s, ClientAcks(x)))
  {
    var s' := Next(c, s, ClientAcks(x));
    forall n | n in s'.packs ensures Located(s', n, s'.packs[n].turn) {
      assert n != x ==> Located(s, n, s.packs[n].turn);
    }
  }

  lemma LocatedClientSends(c: Config, s: State)
    requires Messages(c, s) && AllLocated(s) && Enabled(s, ClientSends)
    ensures AllLocated(Next(c, s, ClientSends))
  {
    var s' := Next(c, s, ClientSends);
    var q := s.send.q;
    assert AckAt(s.packs, q, ClientSender);
    assert s'.c2s[|s.c2s|].names == [q.names[0]];
    forall n | n in s'.packs ensures Located(s', n, s'.packs[n].turn) {
      assert Located(s, n, s.packs[n].turn);
      if n != q.names[0] && s.packs[n].turn == OnC2S {
        var i :| 0 <= i < |s.c2s| && s.c2s[i].names == [n];
        assert s'.c2s[i].names == [n];
      }
    }
  }

  lemma LocatedAckRead(c: Config, s: State)
    requires Messages(c, s) && AllLocated(s) && Enabled(s, ServerReceives) && s.domainSets.Some?
    ensures AllLocated(Next(c, s, ServerReceives))
  {
    var s' := Next(c, s, ServerReceives);
    var q := s.c2s[0];
    assert AckAt(s.packs, q, OnC2S);
    AckIsTurned(s);
    forall n | n in s'.packs ensures Located(s', n, s'.packs[n].turn) {
      assert Located(s, n, s.packs[n].turn);
      if n != q.names[0] && s.packs[n].turn == OnC2S {
        var i :| 0 <= i < |s.c2s| && s.c2s[i].names == [n];
        assert s'.c2s[i - 1].names == [n];
      }
    }
  }

  lemma LocatedHelloRead(c: Config, s: State)
    requires Inv(c, s) && AllLocated(s) && Enabled(s, ServerReceives) && s.domainSets.None?
    ensures AllLocated(Next(c, s, ServerReceives))
  {
    var s' := Next(c, s, ServerReceives);
    assert s.c2s[0] == Hello(c);
    forall n | n in s'.packs ensures Located(s', n, s'.packs[n].turn) {
      assert n in NameSet(c);
      assert PackOk(n, s.packs[n]);
    }
  }

  lemma LocatedName(c: Config, s: State)
    requires Inv(c, s) && AllLocated(s) && Enabled(s, ServerName)
    ensures AllLocated(Next(c, s, ServerName))
  {
    var s' := Next(c, s, ServerName);
    if s.disp.todo != [] && Dispatched(s, s.disp.todo[0]) {
      AckMeetsHandler(c, s);
      LocatedAck(c, s);
    } else {
      LocatedNewName(c, s);
    }
  }

  lemma LocatedAck(c: Config, s: State)
    requires AllLocated(s) && Enabled(s, ServerName) && AckAt(s.packs, s.disp.req, ServerRecv)
    requires s.disp.todo == s.disp.req.names && s.disp.fresh_ == []
    ensures AllLocated(Next(c, s, ServerName))
  {
    var s' := Next(c, s, ServerName);
    forall n | n in s'.packs ensures Located(s', n, s'.packs[n].turn) {
      assert Located(s, n, s.packs[n].turn);
    }
  }

  lemma LocatedNewName(c: Config, s: State)
    requires Inv(c, s) && AllLocated(s) && Enabled(s, ServerName)
    requires s.disp.todo == [] || !Dispatched(s, s.disp.todo[0])
    ensures AllLocated(Next(c, s, ServerName))
  {
    var s' := Next(c, s, ServerName);
    forall n | n in s'.packs ensures Located(s', n, s'.packs[n].turn) {
      assert Located(s, n, s.packs[n].turn);
      assert PackOk(n, s.packs[n]);
      NewNameAwaits(c, s, n);
    }
  }

  lemma NewNameAwaits(c: Config, s: State, n: Name)
    requires Messages(c, s) && Enabled(s, ServerName)
    requires s.disp.todo == [] || !Dispatched(s, s.disp.todo[0])
    ensures Awaited(s.disp, n) ==> Awaited(Next(c, s, ServerName).disp, n)
    ensures n in s.packs && n in s.disp.todo ==> s.packs[n].turn == NotYet
  {
    if s.disp.todo != [] {
      assert s.disp.todo == [s.disp.todo[0]] + s.disp.todo[1..];
    }
    FreshTodo(s.packs, s.disp.fresh_, s.disp.todo);
    if k :| 0 <= k < |s.disp.todo| && s.disp.todo[k] == n {
      assert (s.disp.fresh_ + s.disp.todo)[|s.disp.fresh_| + k] == n;
    }
  }

  lemma LocatedSpawns(c: Config, s: State, i: nat)
    requires Messages(c, s) && AllLocated(s) && Enabled(s, ServerSpawns(i))
    ensures AllLocated(Next(c, s, ServerSpawns(i)))
  {
    var s' := Next(c, s, ServerSpawns(i));
    var names := s.disp.fresh_;
    if names != [] {
      assert names == names[..i] + [names[i]] + names[i + 1..];
    }
    forall n | n in s'.packs ensures Located(s', n, s'.packs[n].turn) {
      assert Located(s, n, s.packs[n].turn);
    }
  }

  lemma LocatedStep(c: Config, s: State, a: Action)
    requires Inv(c, s) && AllLocated(s) && Enabled(s, a)
    ensures AllLocated(Next(c, s, a))
  {
    match a
    case ClientHello =>
      forall n | n in s.packs ensures Located(Next(c, s, a), n, s.packs[n].turn) {
        assert Located(s, n, s.packs[n].turn);
      }
    case ServerReceives => if s.domainSets.Some? { LocatedAckRead(c, s); } else { LocatedHelloRead(c, s); }
    case ServerName => LocatedName(c, s);
    case ServerSpawns(i) => LocatedSpawns(c, s, i);
    case HandlerOffers(n) => LocatedOffers(c, s, n);
    case ServerSends => LocatedServerSends(c, s);
    case ClientReceives => LocatedClientReceives(c, s);
    case ClientDispatches => LocatedClientDispatches(c, s);
    case ClientAcks(n) => LocatedClientAcks(c, s, n);
    case ClientSends => LocatedClientSends(c, s);
    case _ => LocatedQuiet(c, s, a);
  }

  lemma {:induction false} LocatedAlong(c: Config, s: State, acts: seq<Action>)
    requires ConfigOk(c) && Inv(c, s) && AllLocated(s) && Executes(c, s, acts)
    ensures AllLocated(After(c, s, acts))
    decreases |acts|
  {
    if acts != [] {
      LocatedStep(c, s, acts[0]);
      InvStep(c, s, acts[0]);
      LocatedAlong(c, Next(c, s, acts[0]), acts[1..]);
    }
  }

  lemma LocatedReachable(c: Config, s: State)
    requires ConfigOk(c) && Reachable(c, s)
    ensures Inv(c, s) && AllLocated(s)
  {
    InvReachable(c, s);
    var first: map<Name, Cert>, acts :|
      first.Keys == NameSet(c) && Executes(c, Init(c, first), acts) && After(c, Init(c, first), acts) == s;
    InitOk(c, first);
    LocatedAlong(c, Init(c, first), acts);
  }

  // ---------------------------------------------------------------- theorem

  /** Nothing but a renewal can happen for this pack: the handler has offered the current
      version and the watcher has taken it; or the handler found the current certificate
      invalid when it started, and nothing has been offered. */
  ghost predicate AtRest(p: Pack) {
    && p.taken == |p.delivered|
    && match p.h
       case HWait(v) =>
         v == p.version && p.delivered != [] && p.delivered[|p.delivered| - 1] == Got(p.version, p.cert)
       case HFirst(v, at) => v == p.version && !IsValid(p.cert, at) && p.delivered == []
       case _ => false
  }

  /** The stream cannot move unless some certificate is renewed. */
  ghost predicate Quiescent(s: State) {
    forall a: Action :: !a.Renewed? ==> !Enabled(s, a)
  }

  /** No loop and no wire holds anything. */
  predicate Hushed(s: State) {
    && s.send == SIdle && s.disp == DRecv && s.c2s == [] && s.out.None? && s.recv == RIdle && s.s2c == []
    && s.domainSets.Some?
  }

  /** Then the turn of every pack is one of its handlers'. */
  lemma HushedTurn(s: State, n: Name)
    requires Hushed(s) && n in s.packs && Located(s, n, s.packs[n].turn)
    ensures s.packs[n].turn in {Server, ClientHandling}
  {
  }

  /** And the handlers have nothing to do either. */
  lemma HushedHandlers(s: State, n: Name)
    requires Hushed(s) && Quiescent(s) && n in s.packs && s.packs[n].taken <= |s.packs[n].delivered|
    ensures var p := s.packs[n];
            && p.taken == |p.delivered| && !p.h.HStart? && !p.h.HOffer? && !p.k.KPut? && !p.k.KAck?
            && (p.h.HFirst? || p.h.HWait? ==> p.version <= p.h.v)
  {
    assert !Enabled(s, HandlerStarts(n, 0)) && !Enabled(s, HandlerReady(n)) && !Enabled(s, HandlerOffers(n));
    assert !Enabled(s, WatcherTakes(n)) && !Enabled(s, ClientAcks(n)) && !Enabled(s, ClientPuts(n));
  }

  /** When nothing can move the loops on both sides are empty-handed. */
  lemma LoopsIdle(c: Config, s: State)
    requires Inv(c, s) && Quiescent(s) && !s.disp.DError?
    ensures Hushed(s)
  {
    ReceiversReady(c, s);
    assert !Enabled(s, ClientHello) && !Enabled(s, ClientSends) && !Enabled(s, ServerSpawns(0));
    assert !Enabled(s, ServerName) && !Enabled(s, ServerReceives) && !Enabled(s, ServerSends);
    assert !Enabled(s, ClientDispatches) && !Enabled(s, ClientReceives);
  }

  lemma ReceiversReady(c: Config, s: State)
    requires Inv(c, s)
    ensures s.disp.DNames? ==> Enabled(s, ServerName)
    ensures s.recv.RHas? ==> Enabled(s, ClientDispatches)
  {
    if s.disp.DNames? && s.disp.todo != [] && Dispatched(s, s.disp.todo[0]) {
      AckMeetsHandler(c, s);
    }
    if s.recv.RHas? {
      assert PackOk(s.recv.r.name, s.packs[s.recv.r.name]);
    }
  }

  /** A pack neither of whose handlers can move, with nothing of it in flight. */
  lemma HandlersParked(n: Name, p: Pack)
    requires PackOk(n, p) && p.turn in {Server, ClientHandling} && p.taken == |p.delivered|
    requires !p.h.HStart? && !p.h.HOffer? && !p.k.KPut? && !p.k.KAck?
    requires p.h.HFirst? || p.h.HWait? ==> p.version <= p.h.v
    ensures AtRest(p)
  {
  }

  lemma PackAtRest(c: Config, s: State, n: Name)
    requires Inv(c, s) && AllLocated(s) && Quiescent(s) && !s.disp.DError? && n in s.packs
    ensures AtRest(s.packs[n])
  {
    LoopsIdle(c, s);
    assert PackOk(n, s.packs[n]) && Located(s, n, s.packs[n].turn);
    HushedTurn(s, n);
    HushedHandlers(s, n);
    HandlersParked(n, s.packs[n]);
  }

  /** Neither receive loop ever blocks on a handler, in any reachable state: the server's
      can hand over or reject the next name at once, the client's its next response. */
  lemma ReceiversNeverBlock(c: Config, s: State)
    requires ConfigOk(c) && Reachable(c, s)
    ensures s.disp.DNames? ==> Enabled(s, ServerName)
    ensures s.recv.RHas? ==> Enabled(s, ClientDispatches)
  {
    InvReachable(c, s);
    ReceiversReady(c, s);
  }

  /** Never stuck short of its goal. In every reachable state of a stream whose packs are all
      permitted so far, if no goroutine on either side can take a step, then for every
      pack the server's handler is parked on the current version and the last thing
      the daemon took is exactly the current certificate, unless that certificate was
      already invalid when the handler started. */
  lemma RestsOnlyWhenCurrent(c: Config, s: State)
    requires ConfigOk(c) && Reachable(c, s) && !s.disp.DError? && Quiescent(s)
    ensures forall n :: n in s.packs ==> AtRest(s.packs[n])
  {
    LocatedReachable(c, s);
    forall n | n in s.packs ensures AtRest(s.packs[n]) {
      PackAtRest(c, s, n);
    }
  }
}
