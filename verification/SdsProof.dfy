/** The SDS stream keeps one message per pack in motion, and what it delivers is the
    server's history in order. */
module SdsProof {
  import opened Base
  import opened EntryModel
  import opened SdsModel

  // ---------------------------------------------------------------- invariant

  predicate Increasing(s: seq<nat>) {
    forall i, j :: 0 <= i < j < |s| ==> s[i] < s[j]
  }

  /** The last offer has not been put into the update channel yet. */
  predicate InFlight(p: Pack) {
    p.turn == ServerSender || p.turn == OnS2C || p.turn == ClientRecv || (p.turn == ClientHandling && p.k.KPut?)
  }

  ghost predicate MintedAs(p: Pack, v: nat, cert: Cert) {
    v < |p.minted| && p.minted[v] == cert
  }

  /** The server side of one pack. */
  ghost predicate ServerOk(p: Pack) {
    && |p.minted| == p.version + 1 && p.minted[p.version] == p.cert
    && Increasing(p.offered)
    && (p.turn == NotYet <==> p.h == HNone)
    && (p.turn == Server <==> p.h.HStart? || p.h.HFirst? || p.h.HOffer? || p.h.HWait?)
    && (forall i :: 0 <= i < |p.offered| ==> p.offered[i] <= p.version)
    && match p.h
       case HNone | HStart => p.offered == []
       case HFirst(v, at) => p.offered == [] && v < |p.minted| && !IsValid(p.minted[v], at)
       case HOffer(v, cert) =>
         v <= p.version && MintedAs(p, v, cert) && forall i :: 0 <= i < |p.offered| ==> p.offered[i] < v
       case HAwait(v, cert) => MintedAs(p, v, cert) && p.offered != [] && p.offered[|p.offered| - 1] == v
       case HWait(v) => p.offered != [] && p.offered[|p.offered| - 1] == v
       case HRejected => false
  }

  /** What reached the update channel is what was offered, in order, none skipped. */
  ghost predicate DeliveryOk(p: Pack) {
    && p.taken <= |p.delivered| <= p.taken + 1
    && |p.offered| == |p.delivered| + (if InFlight(p) then 1 else 0)
    && forall i :: 0 <= i < |p.delivered| ==>
         p.delivered[i].idx == p.offered[i] && MintedAs(p, p.delivered[i].idx, p.delivered[i].cert)
  }

  /** `r` is the message the server's handler is waiting to have acknowledged. */
  predicate RespAt(m: map<Name, Pack>, r: Resp, t: Turn) {
    && r.name in m && m[r.name].turn == t && m[r.name].h == HAwait(r.idx, r.cert)
    && r.version == Wire(r.cert)
  }

  /** `q` is an ack of exactly the version last offered. */
  predicate AckAt(m: map<Name, Pack>, q: Req, t: Turn) {
    && |q.names| == 1 && q.meta.None? && q.names[0] in m
    && m[q.names[0]].turn == t && m[q.names[0]].h.HAwait? && q.version == Wire(m[q.names[0]].h.cert)
  }

  /** The client handler holds exactly the response the server's handler awaits an ack for. */
  predicate ClientOk(n: Name, p: Pack) {
    match p.k
    case KIdle => p.turn != ClientHandling
    case KPut(r) => HeldBy(n, p, r)
    case KAck(r) => HeldBy(n, p, r)
  }

  predicate HeldBy(n: Name, p: Pack, r: Resp) {
    r.name == n && p.turn == ClientHandling && p.h == HAwait(r.idx, r.cert) && r.version == Wire(r.cert)
  }

  ghost predicate PackOk(n: Name, p: Pack) {
    ServerOk(p) && DeliveryOk(p) && ClientOk(n, p)
  }

  ghost predicate PacksOk(c: Config, m: map<Name, Pack>) {
    m.Keys == NameSet(c) && forall n :: n in m ==> PackOk(n, m[n])
  }

  ghost predicate NobodyYet(m: map<Name, Pack>) {
    forall n :: n in m ==> m[n].turn == NotYet
  }

  function Hello(c: Config): Req {
    Req(c.names, 0, Some(NameSet(c)))
  }

  /** The request direction: nothing, then the first request, then only acks. */
  ghost predicate RequestsOk(c: Config, s: State) {
    if s.send == SHello then s.c2s == [] && s.domainSets.None? && s.disp == DRecv && NobodyYet(s.packs)
    else if s.domainSets.None? then s.c2s == [Hello(c)] && s.disp == DRecv && NobodyYet(s.packs) && s.send == SIdle
    else
      && s.domainSets == Some(NameSet(c))
      && (forall i :: 0 <= i < |s.c2s| ==> AckAt(s.packs, s.c2s[i], OnC2S))
      && (forall i, j :: 0 <= i < j < |s.c2s| ==> s.c2s[i].names[0] != s.c2s[j].names[0])
      && (s.send.SHas? ==> AckAt(s.packs, s.send.q, ClientSender))
  }

  /** Names still waiting for a handler: each once, none dispatched. */
  ghost predicate Fresh(m: map<Name, Pack>, names: seq<Name>) {
    && (forall i :: 0 <= i < |names| ==> names[i] in m && m[names[i]].turn == NotYet)
    && (forall i, j :: 0 <= i < j < |names| ==> names[i] != names[j])
  }

  ghost predicate DispOk(m: map<Name, Pack>, d: Dispatcher) {
    match d
    case DRecv => true
    case DNames(req, todo, fresh_) =>
      || (fresh_ == [] && todo == req.names && AckAt(m, req, ServerRecv))
      || Fresh(m, fresh_ + todo)
    case DSpawn(fresh_) => Fresh(m, fresh_)
    case DError(e) => e == NotPermitted
  }

  ghost predicate ResponsesOk(s: State) {
    && (s.out.Some? ==> RespAt(s.packs, s.out.value, ServerSender))
    && (forall i :: 0 <= i < |s.s2c| ==> RespAt(s.packs, s.s2c[i], OnS2C))
    && (forall i, j :: 0 <= i < j < |s.s2c| ==> s.s2c[i].name != s.s2c[j].name)
    && (s.recv.RHas? ==> RespAt(s.packs, s.recv.r, ClientRecv))
    && !s.recv.RError?
  }

  /** Where messages are, as opposed to what a pack knows about itself. */
  ghost predicate Messages(c: Config, s: State) {
    RequestsOk(c, s) && DispOk(s.packs, s.disp) && ResponsesOk(s)
  }

  ghost predicate Inv(c: Config, s: State) {
    PacksOk(c, s.packs) && Messages(c, s)
  }

  // ---------------------------------------------------------------- one pack's own steps

  lemma RenewedPack(n: Name, p: Pack, cert: Cert)
    requires PackOk(n, p)
    ensures PackOk(n, RenewMove(p, cert))
  {
  }

  lemma ReadyPack(n: Name, p: Pack)
    requires PackOk(n, p) && (p.h.HFirst? || p.h.HWait?) && p.h.v < p.version
    ensures PackOk(n, ReadyMove(p))
  {
    assert p.offered != [] ==> forall i :: 0 <= i < |p.offered| ==> p.offered[i] <= p.offered[|p.offered| - 1];
  }

  lemma StartPack(n: Name, p: Pack, now: int)
    requires PackOk(n, p) && p.h.HStart?
    ensures PackOk(n, StartMove(p, now))
  {
  }

  lemma OfferPack(n: Name, p: Pack)
    requires PackOk(n, p) && p.h.HOffer?
    ensures PackOk(n, p.(h := HAwait(p.h.v, p.h.cert), turn := ServerSender, offered := p.offered + [p.h.v]))
  {
  }

  /** A message about the pack changes hands outside the handlers. */
  lemma PassPack(n: Name, p: Pack, t: Turn)
    requires PackOk(n, p)
    requires (p.turn, t) in {(ServerSender, OnS2C), (OnS2C, ClientRecv), (ClientSender, OnC2S), (OnC2S, ServerRecv)}
    ensures PackOk(n, p.(turn := t))
  {
  }

  lemma HandPack(n: Name, p: Pack, r: Resp)
    requires PackOk(n, p) && p.turn == ClientRecv
    requires r.name == n && p.h == HAwait(r.idx, r.cert) && r.version == Wire(r.cert)
    ensures PackOk(n, p.(k := KPut(r), turn := ClientHandling))
  {
  }

  lemma PutPack(n: Name, p: Pack)
    requires PackOk(n, p) && p.k.KPut? && |p.delivered| <= p.taken
    ensures PackOk(n, p.(k := KAck(p.k.r), delivered := p.delivered + [Got(p.k.r.idx, p.k.r.cert)]))
  {
  }

  lemma AckPack(n: Name, p: Pack)
    requires PackOk(n, p) && p.k.KAck?
    ensures PackOk(n, p.(k := KIdle, turn := ClientSender))
  {
  }

  lemma AckedPack(n: Name, p: Pack)
    requires PackOk(n, p) && p.turn == ServerRecv && p.h.HAwait?
    ensures PackOk(n, p.(h := HWait(p.h.v), turn := Server))
  {
  }

  lemma SpawnPack(n: Name, p: Pack)
    requires PackOk(n, p) && p.turn == NotYet
    ensures PackOk(n, p.(h := HStart, turn := Server))
  {
  }

  /** Replacing one pack by a good one keeps all packs good. */
  lemma PackChanges(c: Config, m: map<Name, Pack>, n: Name, p: Pack)
    requires PacksOk(c, m) && n in m && PackOk(n, p)
    ensures PacksOk(c, m[n := p])
  {
    assert m[n := p].Keys == m.Keys;
  }

  // ---------------------------------------------------------------- messages stay put

  // Messages live where their pack's turn says, so changing a pack disturbs no message
  // found anywhere else.

  /** The pack keeps its role towards messages. */
  predicate SameRole(p: Pack, p': Pack) {
    p'.turn == p.turn && p'.h == p.h
  }

  lemma KeepS2C(m: map<Name, Pack>, s2c: seq<Resp>, n: Name, p: Pack)
    requires forall i :: 0 <= i < |s2c| ==> RespAt(m, s2c[i], OnS2C)
    requires n in m && (m[n].turn != OnS2C || SameRole(m[n], p) || forall i :: 0 <= i < |s2c| ==> s2c[i].name != n)
    ensures forall i :: 0 <= i < |s2c| ==> RespAt(m[n := p], s2c[i], OnS2C)
  {
    forall i | 0 <= i < |s2c| ensures RespAt(m[n := p], s2c[i], OnS2C) {
      assert RespAt(m, s2c[i], OnS2C);
    }
  }

  lemma KeepC2S(m: map<Name, Pack>, c2s: seq<Req>, n: Name, p: Pack)
    requires forall i :: 0 <= i < |c2s| ==> AckAt(m, c2s[i], OnC2S)
    requires n in m && (m[n].turn != OnC2S || SameRole(m[n], p) || forall i :: 0 <= i < |c2s| ==> c2s[i].names != [n])
    ensures forall i :: 0 <= i < |c2s| ==> AckAt(m[n := p], c2s[i], OnC2S)
  {
    forall i | 0 <= i < |c2s| ensures AckAt(m[n := p], c2s[i], OnC2S) {
      assert AckAt(m, c2s[i], OnC2S);
    }
  }

  /** Responses survive a change of a pack that none of them is about. */
  lemma KeepResponses(s: State, n: Name, p: Pack)
    requires ResponsesOk(s) && n in s.packs
    requires SameRole(s.packs[n], p) || s.packs[n].turn !in {OnS2C, ServerSender, ClientRecv}
    ensures ResponsesOk(s.(packs := s.packs[n := p]))
  {
    KeepS2C(s.packs, s.s2c, n, p);
  }

  lemma KeepRequests(c: Config, s: State, n: Name, p: Pack)
    requires RequestsOk(c, s) && n in s.packs
    requires s.packs[n].turn == NotYet ==> p.turn == NotYet || s.domainSets.Some?
    requires SameRole(s.packs[n], p) || s.packs[n].turn !in {OnC2S, ClientSender}
    ensures RequestsOk(c, s.(packs := s.packs[n := p]))
  {
    if s.domainSets.Some? && s.send != SHello {
      KeepC2S(s.packs, s.c2s, n, p);
    }
  }

  lemma KeepFresh(m: map<Name, Pack>, names: seq<Name>, n: Name, p: Pack)
    requires Fresh(m, names) && n in m && (n !in names || p.turn == NotYet)
    ensures Fresh(m[n := p], names)
  {
  }

  lemma KeepDisp(m: map<Name, Pack>, d: Dispatcher, n: Name, p: Pack)
    requires DispOk(m, d) && n in m
    requires SameRole(m[n], p) || m[n].turn !in {NotYet, ServerRecv}
    ensures DispOk(m[n := p], d)
  {
    if d.DNames? && Fresh(m, d.fresh_ + d.todo) {
      KeepFresh(m, d.fresh_ + d.todo, n, p);
    } else if d.DSpawn? {
      KeepFresh(m, d.fresh_, n, p);
    }
  }

  /** Steps of a pack that no message outside its handlers is about. */
  lemma QuietStep(c: Config, s: State, n: Name, p: Pack)
    requires Messages(c, s) && n in s.packs
    requires SameRole(s.packs[n], p) || s.packs[n].turn in {Server, ClientHandling}
    ensures Messages(c, s.(packs := s.packs[n := p]))
  {
    KeepResponses(s, n, p);
    KeepRequests(c, s, n, p);
    KeepDisp(s.packs, s.disp, n, p);
  }

  /** Once a pack has a handler, the first request has been read. */
  lemma Started(c: Config, s: State, n: Name)
    requires RequestsOk(c, s) && n in s.packs && s.packs[n].turn != NotYet
    ensures s.send != SHello && s.domainSets == Some(NameSet(c))
  {
  }

  // ---------------------------------------------------------------- steps on the response path

  /** A step that changes one pack and nothing else. */
  lemma OnePackStep(c: Config, s: State, n: Name, p: Pack)
    requires Inv(c, s) && n in s.packs && PackOk(n, p)
    requires SameRole(s.packs[n], p) || s.packs[n].turn in {Server, ClientHandling}
    ensures Inv(c, s.(packs := s.packs[n := p]))
  {
    PackChanges(c, s.packs, n, p);
    QuietStep(c, s, n, p);
  }

  lemma RenewedKeeps(c: Config, s: State, n: Name, cert: Cert)
    requires Inv(c, s) && n in s.packs
    ensures Inv(c, Next(c, s, Renewed(n, cert)))
  {
    var p := RenewMove(s.packs[n], cert);
    RenewedPack(n, s.packs[n], cert);
    OnePackStep(c, s, n, p);
    assert Next(c, s, Renewed(n, cert)) == s.(packs := s.packs[n := p]);
  }

  lemma WatchedPack(n: Name, p: Pack)
    requires PackOk(n, p) && p.taken < |p.delivered|
    ensures PackOk(n, TakeMove(p))
  {
  }

  lemma WatcherKeeps(c: Config, s: State, n: Name)
    requires Inv(c, s) && Enabled(s, WatcherTakes(n))
    ensures Inv(c, Next(c, s, WatcherTakes(n)))
  {
    var p := TakeMove(s.packs[n]);
    WatchedPack(n, s.packs[n]);
    OnePackStep(c, s, n, p);
    assert Next(c, s, WatcherTakes(n)) == s.(packs := s.packs[n := p]);
  }

  lemma ReadyKeeps(c: Config, s: State, n: Name)
    requires Inv(c, s) && Enabled(s, HandlerReady(n))
    ensures Inv(c, Next(c, s, HandlerReady(n)))
  {
    ReadyPack(n, s.packs[n]);
    OnePackStep(c, s, n, ReadyMove(s.packs[n]));
  }

  lemma StartsKeeps(c: Config, s: State, n: Name, now: int)
    requires Inv(c, s) && Enabled(s, HandlerStarts(n, now))
    ensures Inv(c, Next(c, s, HandlerStarts(n, now)))
  {
    StartPack(n, s.packs[n], now);
    OnePackStep(c, s, n, StartMove(s.packs[n], now));
  }

  lemma OffersKeeps(c: Config, s: State, n: Name)
    requires Inv(c, s) && Enabled(s, HandlerOffers(n))
    ensures Inv(c, Next(c, s, HandlerOffers(n)))
  {
    var p := s.packs[n];
    var p' := p.(h := HAwait(p.h.v, p.h.cert), turn := ServerSender, offered := p.offered + [p.h.v]);
    OfferPack(n, p);
    PackChanges(c, s.packs, n, p');
    QuietStep(c, s, n, p');
  }

  lemma ServerSendsMessages(c: Config, s: State)
    requires Messages(c, s) && Enabled(s, ServerSends)
    ensures Messages(c, Next(c, s, ServerSends))
  {
    var n := s.out.value.name;
    var p := s.packs[n].(turn := OnS2C);
    KeepS2C(s.packs, s.s2c, n, p);
    KeepRequests(c, s, n, p);
    KeepDisp(s.packs, s.disp, n, p);
    forall i | 0 <= i < |s.s2c| ensures s.s2c[i].name != n {
      assert RespAt(s.packs, s.s2c[i], OnS2C);
    }
  }

  lemma ClientReceivesMessages(c: Config, s: State)
    requires Messages(c, s) && Enabled(s, ClientReceives)
    ensures Messages(c, Next(c, s, ClientReceives))
  {
    assert RespAt(s.packs, s.s2c[0], OnS2C);
    var n := s.s2c[0].name;
    var p := s.packs[n].(turn := ClientRecv);
    var rest := s.s2c[1..];
    assert forall i :: 0 <= i < |rest| ==> rest[i] == s.s2c[i + 1];
    KeepS2C(s.packs, rest, n, p);
    KeepRequests(c, s, n, p);
    KeepDisp(s.packs, s.disp, n, p);
  }

  lemma ClientDispatchesMessages(c: Config, s: State)
    requires Messages(c, s) && Enabled(s, ClientDispatches)
    ensures Messages(c, Next(c, s, ClientDispatches))
  {
    var n := s.recv.r.name;
    var p := s.packs[n].(k := KPut(s.recv.r), turn := ClientHandling);
    KeepS2C(s.packs, s.s2c, n, p);
    KeepRequests(c, s, n, p);
    KeepDisp(s.packs, s.disp, n, p);
  }

  lemma ResponseStepKeeps(c: Config, s: State, a: Action)
    requires Inv(c, s) && Enabled(s, a) && (a.ServerSends? || a.ClientReceives? || a.ClientDispatches?)
    ensures Inv(c, Next(c, s, a))
  {
    match a
    case ServerSends =>
      var n := s.out.value.name;
      PassPack(n, s.packs[n], OnS2C);
      PackChanges(c, s.packs, n, s.packs[n].(turn := OnS2C));
      ServerSendsMessages(c, s);
    case ClientReceives =>
      assert RespAt(s.packs, s.s2c[0], OnS2C);
      var n := s.s2c[0].name;
      PassPack(n, s.packs[n], ClientRecv);
      PackChanges(c, s.packs, n, s.packs[n].(turn := ClientRecv));
      ClientReceivesMessages(c, s);
    case ClientDispatches =>
      var r := s.recv.r;
      HandPack(r.name, s.packs[r.name], r);
      PackChanges(c, s.packs, r.name, s.packs[r.name].(k := KPut(r), turn := ClientHandling));
      ClientDispatchesMessages(c, s);
  }

  // ---------------------------------------------------------------- steps on the request path

  lemma ClientPutsKeeps(c: Config, s: State, n: Name)
    requires Inv(c, s) && Enabled(s, ClientPuts(n))
    ensures Inv(c, Next(c, s, ClientPuts(n)))
  {
    var p := s.packs[n];
    var p' := p.(k := KAck(p.k.r), delivered := p.delivered + [Got(p.k.r.idx, p.k.r.cert)]);
    PutPack(n, p);
    PackChanges(c, s.packs, n, p');
    QuietStep(c, s, n, p');
  }

  lemma ClientAcksPacks(c: Config, s: State, n: Name)
    requires PacksOk(c, s.packs) && Enabled(s, ClientAcks(n))
    ensures PacksOk(c, Next(c, s, ClientAcks(n)).packs)
    ensures HeldBy(n, s.packs[n], s.packs[n].k.r)
  {
    AckPack(n, s.packs[n]);
    PackChanges(c, s.packs, n, s.packs[n].(k := KIdle, turn := ClientSender));
  }

  lemma ClientAcksMessages(c: Config, s: State, n: Name)
    requires Messages(c, s) && Enabled(s, ClientAcks(n)) && HeldBy(n, s.packs[n], s.packs[n].k.r)
    ensures Messages(c, Next(c, s, ClientAcks(n)))
  {
    Started(c, s, n);
    QuietStep(c, s, n, s.packs[n].(k := KIdle, turn := ClientSender));
  }

  lemma ClientSendsMessages(c: Config, s: State)
    requires Messages(c, s) && Enabled(s, ClientSends)
    ensures Messages(c, Next(c, s, ClientSends))
  {
    var q := s.send.q;
    assert AckAt(s.packs, q, ClientSender);
    var n := q.names[0];
    var p := s.packs[n].(turn := OnC2S);
    KeepResponses(s, n, p);
    KeepDisp(s.packs, s.disp, n, p);
    KeepC2S(s.packs, s.c2s, n, p);
    forall i | 0 <= i < |s.c2s| ensures s.c2s[i].names[0] != n {
      assert AckAt(s.packs, s.c2s[i], OnC2S);
    }
  }

  lemma ClientSendsKeeps(c: Config, s: State)
    requires Inv(c, s) && Enabled(s, ClientSends)
    ensures Inv(c, Next(c, s, ClientSends))
  {
    assert AckAt(s.packs, s.send.q, ClientSender);
    var n := s.send.q.names[0];
    PassPack(n, s.packs[n], OnC2S);
    PackChanges(c, s.packs, n, s.packs[n].(turn := OnC2S));
    ClientSendsMessages(c, s);
  }

  lemma AckReadMessages(c: Config, s: State)
    requires Messages(c, s) && Enabled(s, ServerReceives) && s.domainSets.Some?
    ensures Messages(c, Next(c, s, ServerReceives))
  {
    var q := s.c2s[0];
    assert AckAt(s.packs, q, OnC2S);
    var n := q.names[0];
    var p := s.packs[n].(turn := ServerRecv);
    KeepResponses(s, n, p);
    var rest := s.c2s[1..];
    assert forall i :: 0 <= i < |rest| ==> rest[i] == s.c2s[i + 1];
    KeepC2S(s.packs, rest, n, p);
  }

  lemma AckIsTurned(s: State)
    requires s.c2s != [] && s.domainSets.Some? && AckAt(s.packs, s.c2s[0], OnC2S)
    ensures var n := s.c2s[0].names[0]; ReceiveMove(s).packs == s.packs[n := s.packs[n].(turn := ServerRecv)]
  {
  }

  /** Reading an ack moves its pack's turn to the receive loop. */
  lemma AckReadPacks(c: Config, s: State)
    requires PacksOk(c, s.packs) && Enabled(s, ServerReceives) && s.domainSets.Some?
    requires AckAt(s.packs, s.c2s[0], OnC2S)
    ensures PacksOk(c, Next(c, s, ServerReceives).packs)
  {
    var n := s.c2s[0].names[0];
    AckIsTurned(s);
    PassPack(n, s.packs[n], ServerRecv);
    PackChanges(c, s.packs, n, s.packs[n].(turn := ServerRecv));
  }

  /** Reading the first request installs its metadata. */
  lemma HelloReadKeeps(c: Config, s: State)
    requires ConfigOk(c) && Inv(c, s) && Enabled(s, ServerReceives) && s.domainSets.None?
    ensures Inv(c, Next(c, s, ServerReceives))
  {
    assert s.c2s[0] == Hello(c);
    HelloIsFresh(c, s);
    HelloReadShape(c, s);
    assert [] + c.names == c.names;
  }

  /** Before the first request is read no pack has a handler. */
  lemma HelloIsFresh(c: Config, s: State)
    requires ConfigOk(c) && PacksOk(c, s.packs) && NobodyYet(s.packs)
    ensures Fresh(s.packs, c.names) && forall n :: !Dispatched(s, n)
  {
    forall i | 0 <= i < |c.names| ensures c.names[i] in s.packs {
      assert c.names[i] in NameSet(c);
    }
    forall n ensures !Dispatched(s, n) {
      assert n in s.packs ==> PackOk(n, s.packs[n]);
    }
  }

  lemma HelloReadShape(c: Config, s: State)
    requires Enabled(s, ServerReceives) && s.domainSets.None? && s.c2s[0] == Hello(c) && forall n :: !Dispatched(s, n)
    ensures Next(c, s, ServerReceives)
            == s.(c2s := s.c2s[1..], domainSets := Some(NameSet(c)), disp := DNames(Hello(c), c.names, []))
  {
    if |c.names| == 1 {
      assert !Dispatched(s, c.names[0]);
    }
  }

  /** An ack meets its handler, which is waiting for exactly it. */
  lemma AckMeetsHandler(c: Config, s: State)
    requires Inv(c, s) && s.disp.DNames? && s.disp.todo != [] && Dispatched(s, s.disp.todo[0])
    ensures AckAt(s.packs, s.disp.req, ServerRecv) && s.disp.todo == s.disp.req.names && s.disp.fresh_ == []
  {
    assert PackOk(s.disp.todo[0], s.packs[s.disp.todo[0]]);
    FreshTodo(s.packs, s.disp.fresh_, s.disp.todo);
  }

  lemma FreshTodo(m: map<Name, Pack>, fresh_: seq<Name>, todo: seq<Name>)
    ensures Fresh(m, fresh_ + todo) && todo != [] ==> todo[0] in m && m[todo[0]].turn == NotYet
  {
    if todo != [] {
      assert (fresh_ + todo)[|fresh_|] == todo[0];
    }
  }

  lemma AckPacks(c: Config, s: State)
    requires PacksOk(c, s.packs) && Enabled(s, ServerName)
    requires AckAt(s.packs, s.disp.req, ServerRecv) && s.disp.todo == s.disp.req.names
    ensures PacksOk(c, Next(c, s, ServerName).packs)
  {
    var n := s.disp.todo[0];
    AckedPack(n, s.packs[n]);
    PackChanges(c, s.packs, n, s.packs[n].(h := HWait(s.packs[n].h.v), turn := Server));
  }

  lemma AckMessages(c: Config, s: State)
    requires Messages(c, s) && Enabled(s, ServerName)
    requires AckAt(s.packs, s.disp.req, ServerRecv) && s.disp.todo == s.disp.req.names && s.disp.fresh_ == []
    ensures Messages(c, Next(c, s, ServerName))
  {
    var n := s.disp.todo[0];
    var p := s.packs[n].(h := HWait(s.packs[n].h.v), turn := Server);
    KeepResponses(s, n, p);
    KeepRequests(c, s, n, p);
    Started(c, s, n);
    assert s.disp.todo[1..] == [] && Dispatched(s, n);
    assert Next(c, s, ServerName) == s.(packs := s.packs[n := p], disp := DNames(s.disp.req, [], []));
    assert Fresh(s.packs[n := p], [] + []);
  }

  lemma NewNameMessages(c: Config, s: State)
    requires Messages(c, s) && Enabled(s, ServerName) && s.packs.Keys == NameSet(c)
    requires Fresh(s.packs, s.disp.fresh_ + s.disp.todo)
    requires s.disp.todo == [] || !Dispatched(s, s.disp.todo[0])
    ensures Messages(c, Next(c, s, ServerName))
  {
    var DNames(req, todo, fresh_) := s.disp;
    FreshTodo(s.packs, fresh_, todo);
    if todo == [] {
      assert fresh_ + todo == fresh_;
    } else {
      assert fresh_ + [todo[0]] + todo[1..] == fresh_ + todo;
    }
  }

  lemma NewNameKeeps(c: Config, s: State)
    requires Inv(c, s) && Enabled(s, ServerName) && (s.disp.todo == [] || !Dispatched(s, s.disp.todo[0]))
    ensures Inv(c, Next(c, s, ServerName))
  {
    NewNameMessages(c, s);
  }

  lemma SpawnMessages(c: Config, s: State, i: nat)
    requires Messages(c, s) && Enabled(s, ServerSpawns(i))
    ensures Messages(c, Next(c, s, ServerSpawns(i)))
  {
    var names := s.disp.fresh_;
    if names != [] {
      var n := names[i];
      var p := s.packs[n].(h := HStart, turn := Server);
      KeepResponses(s, n, p);
      KeepRequests(c, s, n, p);
      var rest := names[..i] + names[i + 1..];
      assert forall k :: 0 <= k < |rest| ==> rest[k] == names[if k < i then k else k + 1];
      KeepFresh(s.packs, rest, n, p);
    }
  }

  lemma SpawnKeeps(c: Config, s: State, i: nat)
    requires Inv(c, s) && Enabled(s, ServerSpawns(i))
    ensures Inv(c, Next(c, s, ServerSpawns(i)))
  {
    if s.disp.fresh_ != [] {
      var n := s.disp.fresh_[i];
      SpawnPack(n, s.packs[n]);
      PackChanges(c, s.packs, n, s.packs[n].(h := HStart, turn := Server));
    }
    SpawnMessages(c, s, i);
  }

  lemma RequestStepKeeps(c: Config, s: State, a: Action)
    requires ConfigOk(c) && Inv(c, s) && Enabled(s, a) && (a.ServerReceives? || a.ServerName?)
    ensures Inv(c, Next(c, s, a))
  {
    match a
    case ServerReceives =>
      if s.domainSets.Some? {
        assert AckAt(s.packs, s.c2s[0], OnC2S);
        AckReadPacks(c, s);
        AckReadMessages(c, s);
      } else {
        HelloReadKeeps(c, s);
      }
    case ServerName =>
      if s.disp.todo != [] && Dispatched(s, s.disp.todo[0]) {
        AckMeetsHandler(c, s);
        AckPacks(c, s);
        AckMessages(c, s);
      } else {
        NewNameKeeps(c, s);
      }
  }

  lemma InvStep(c: Config, s: State, a: Action)
    requires ConfigOk(c) && Inv(c, s) && Enabled(s, a)
    ensures Inv(c, Next(c, s, a))
  {
    match a
    case Renewed(n, cert) => RenewedKeeps(c, s, n, cert);
    case ClientHello =>
    case ServerReceives | ServerName => RequestStepKeeps(c, s, a);
    case ServerSpawns(i) => SpawnKeeps(c, s, i);
    case HandlerStarts(n, now) => StartsKeeps(c, s, n, now);
    case HandlerReady(n) => ReadyKeeps(c, s, n);
    case HandlerOffers(n) => OffersKeeps(c, s, n);
    case ServerSends | ClientReceives | ClientDispatches => ResponseStepKeeps(c, s, a);
    case ClientPuts(n) => ClientPutsKeeps(c, s, n);
    case ClientAcks(n) =>
      ClientAcksPacks(c, s, n);
      ClientAcksMessages(c, s, n);
    case ClientSends => ClientSendsKeeps(c, s);
    case WatcherTakes(n) => WatcherKeeps(c, s, n);
  }

  lemma {:induction false} InvAlong(c: Config, s: State, acts: seq<Action>)
    requires ConfigOk(c) && Inv(c, s) && Executes(c, s, acts)
    ensures Inv(c, After(c, s, acts))
    decreases |acts|
  {
    if acts != [] {
      InvStep(c, s, acts[0]);
      InvAlong(c, Next(c, s, acts[0]), acts[1..]);
    }
  }

  lemma InvReachable(c: Config, s: State)
    requires ConfigOk(c) && Reachable(c, s)
    ensures Inv(c, s)
  {
    var first: map<Name, Cert>, acts :|
      first.Keys == NameSet(c) && Executes(c, Init(c, first), acts) && After(c, Init(c, first), acts) == s;
    InitOk(c, first);
    InvAlong(c, Init(c, first), acts);
  }

  lemma InitOk(c: Config, first: map<Name, Cert>)
    requires first.Keys == NameSet(c)
    ensures Inv(c, Init(c, first))
  {
    var s := Init(c, first);
    assert s.packs.Keys == NameSet(c);
  }
}
