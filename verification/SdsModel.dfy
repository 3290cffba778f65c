/** One SDS stream between a certdx server and a certdx client: both receive loops,
    both send loops, one handler per pack on either side, and the daemon's watcher.
    The wire is two FIFO sequences; a send on an unbuffered channel is one joint step
    of sender and receiver. */
module SdsModel {
  import opened Base
  import opened EntryModel

  type Name = string

  /** `names` are the client's packs in the order its first request lists them;
      `permitted` are those the server's allow-list admits. */
  datatype Config = Config(names: seq<Name>, permitted: set<Name>)

  /** The client's pack names are unique. */
  ghost predicate ConfigOk(c: Config) {
    forall i, j :: 0 <= i < j < |c.names| ==> c.names[i] != c.names[j]
  }

  function NameSet(c: Config): set<Name> {
    set n | n in c.names
  }

  /** The version string on the wire: RenewAt to the second. */
  function Wire(cert: Cert): int {
    cert.renewAt / 1_000_000_000
  }

  /** A request: its resource names, its version, and, in the first one, the names its
      metadata describes. */
  datatype Req = Req(names: seq<Name>, version: int, meta: Option<set<Name>>)

  /** A response. `idx` is history: the server version that was offered. */
  datatype Resp = Resp(name: Name, cert: Cert, version: int, idx: nat)

  /** Server handleCert. The version counts renewals of the pack's entry; by
      EntryBroadcast.NoLostWakeup a wait ends with a newer one. `HFirst` is the wait of a
      handler that found the certificate invalid when it started, at time `at`. */
  datatype Handler =
    | HNone | HStart | HFirst(v: nat, at: int)
    | HOffer(v: nat, cert: Cert) | HAwait(v: nat, cert: Cert) | HWait(v: nat) | HRejected

  /** Client handleCert. */
  datatype ClientHandler = KIdle | KPut(r: Resp) | KAck(r: Resp)

  /** History: who has to act next for a pack. */
  datatype Turn =
    | NotYet | Server | ServerSender | OnS2C | ClientRecv | ClientHandling | ClientSender | OnC2S | ServerRecv

  datatype Got = Got(idx: nat, cert: Cert)

  /** `cert` and `version` are the entry's snapshot; `delivered` are the values put into
      the update channel, of which the watcher has taken `taken`. `turn`, `minted` (the
      certificate of every version) and `offered` are history. */
  datatype Pack = Pack(
    h: Handler,
    k: ClientHandler,
    cert: Cert,
    version: nat,
    turn: Turn,
    minted: seq<Cert>,
    offered: seq<nat>,
    delivered: seq<Got>,
    taken: nat)

  datatype Error = NoMetadata | UnknownPack | NotPermitted

  /** The server's receive loop. `fresh_` is the map of new packs, which Go walks in any order. */
  datatype Dispatcher =
    | DRecv
    | DNames(req: Req, todo: seq<Name>, fresh_: seq<Name>)
    | DSpawn(fresh_: seq<Name>)
    | DError(e: Error)

  /** The client's receive and send loops. */
  datatype Receiver = RIdle | RHas(r: Resp) | RError
  datatype Sender = SHello | SIdle | SHas(q: Req)

  datatype State = State(
    packs: map<Name, Pack>,
    s2c: seq<Resp>,
    c2s: seq<Req>,
    disp: Dispatcher,
    out: Option<Resp>,
    recv: Receiver,
    send: Sender,
    domainSets: Option<set<Name>>)

  function Init(c: Config, first: map<Name, Cert>): State
    requires first.Keys == NameSet(c)
  {
    State(map n | n in first :: Pack(HNone, KIdle, first[n], 0, NotYet, [first[n]], [], [], 0),
          [], [], DRecv, None, RIdle, SHello, None)
  }

  datatype Action =
    | Renewed(n: Name, cert: Cert)
    | ClientHello
    | ServerReceives
    | ServerName
    | ServerSpawns(i: nat)
    | HandlerStarts(n: Name, now: int)
    | HandlerReady(n: Name)
    | HandlerOffers(n: Name)
    | ServerSends
    | ClientReceives
    | ClientDispatches
    | ClientPuts(n: Name)
    | ClientAcks(n: Name)
    | ClientSends
    | WatcherTakes(n: Name)

  predicate Enabled(s: State, a: Action) {
    match a
    case Renewed(n, _) => n in s.packs
    case ClientHello => s.send == SHello
    case ServerReceives => s.disp == DRecv && s.c2s != []
    case ServerName =>
      s.disp.DNames? && (s.disp.todo != [] && Dispatched(s, s.disp.todo[0]) ==> s.packs[s.disp.todo[0]].h.HAwait?)
    case ServerSpawns(i) => s.disp.DSpawn? && (s.disp.fresh_ == [] || i < |s.disp.fresh_|)
    case HandlerStarts(n, _) => n in s.packs && s.packs[n].h.HStart?
    case HandlerReady(n) =>
      n in s.packs && (s.packs[n].h.HFirst? || s.packs[n].h.HWait?) && s.packs[n].h.v < s.packs[n].version
    case HandlerOffers(n) => n in s.packs && s.packs[n].h.HOffer? && s.out.None?
    case ServerSends => s.out.Some?
    case ClientReceives => s.recv == RIdle && s.s2c != []
    case ClientDispatches => s.recv.RHas? && (s.recv.r.name in s.packs ==> s.packs[s.recv.r.name].k.KIdle?)
    case ClientPuts(n) => n in s.packs && s.packs[n].k.KPut? && |s.packs[n].delivered| <= s.packs[n].taken
    case ClientAcks(n) => n in s.packs && s.packs[n].k.KAck? && s.send == SIdle
    case ClientSends => s.send.SHas?
    case WatcherTakes(n) => n in s.packs && s.packs[n].taken < |s.packs[n].delivered|
  }

  /** The server has a handler for this pack on this stream. */
  predicate Dispatched(s: State, n: Name) {
    n in s.packs && !s.packs[n].h.HNone?
  }

  function Turned(m: map<Name, Pack>, n: Name, t: Turn): map<Name, Pack> {
    if n in m then m[n := m[n].(turn := t)] else m
  }

  /** The receive loop looks at the next resource name of the request. */
  function NameMove(c: Config, s: State): State
    requires Enabled(s, ServerName)
  {
    var DNames(req, todo, fresh_) := s.disp;
    if todo == [] then s.(disp := DSpawn(fresh_))
    else
      var n := todo[0];
      if Dispatched(s, n) then
        var p := s.packs[n];
        var h := if req.version == Wire(p.h.cert) then HWait(p.h.v) else HRejected;
        s.(packs := s.packs[n := p.(h := h, turn := Server)],
           disp := DNames(req, todo[1..], fresh_))
      else if s.domainSets.None? || n !in s.domainSets.value then s.(disp := DError(UnknownPack))
      else if n !in c.permitted then s.(disp := DError(NotPermitted))
      else s.(disp := DNames(req, todo[1..], fresh_ + [n]))
  }

  function ReceiveMove(s: State): State
    requires s.c2s != []
  {
    var req := s.c2s[0];
    var s := s.(c2s := s.c2s[1..]);
    if s.domainSets.None? && req.meta.None? then s.(disp := DError(NoMetadata))
    else
      s.(domainSets := if s.domainSets.None? then req.meta else s.domainSets,
         disp := DNames(req, req.names, []),
         packs := if |req.names| == 1 && Dispatched(s, req.names[0])
                  then Turned(s.packs, req.names[0], ServerRecv) else s.packs)
  }

  /** The entry behind the pack gets a new certificate. */
  function RenewMove(p: Pack, cert: Cert): Pack {
    p.(cert := cert, version := p.version + 1, minted := p.minted + [cert])
  }

  /** The handler's snapshot after a wait. */
  function ReadyMove(p: Pack): Pack {
    p.(h := HOffer(p.version, p.cert))
  }

  function TakeMove(p: Pack): Pack {
    p.(taken := p.taken + 1)
  }

  /** The handler's first snapshot, and whether it may be offered at once. */
  function StartMove(p: Pack, now: int): Pack {
    p.(h := if IsValid(p.cert, now) then HOffer(p.version, p.cert) else HFirst(p.version, now))
  }

  function Next(c: Config, s: State, a: Action): State
    requires Enabled(s, a)
  {
    match a
    case Renewed(n, cert) => s.(packs := s.packs[n := RenewMove(s.packs[n], cert)])
    case ClientHello => s.(c2s := s.c2s + [Req(c.names, 0, Some(NameSet(c)))], send := SIdle)
    case ServerReceives => ReceiveMove(s)
    case ServerName => NameMove(c, s)
    case ServerSpawns(i) =>
      if s.disp.fresh_ == [] then s.(disp := DRecv)
      else
        var n := s.disp.fresh_[i];
        s.(packs := if n in s.packs then s.packs[n := s.packs[n].(h := HStart, turn := Server)] else s.packs,
           disp := DSpawn(s.disp.fresh_[..i] + s.disp.fresh_[i + 1..]))
    case HandlerStarts(n, now) => s.(packs := s.packs[n := StartMove(s.packs[n], now)])
    case HandlerReady(n) => s.(packs := s.packs[n := ReadyMove(s.packs[n])])
    case HandlerOffers(n) =>
      var p := s.packs[n];
      s.(packs := s.packs[n := p.(h := HAwait(p.h.v, p.h.cert), turn := ServerSender, offered := p.offered + [p.h.v])],
         out := Some(Resp(n, p.h.cert, Wire(p.h.cert), p.h.v)))
    case ServerSends =>
      s.(s2c := s.s2c + [s.out.value], out := None, packs := Turned(s.packs, s.out.value.name, OnS2C))
    case ClientReceives =>
      s.(recv := RHas(s.s2c[0]), s2c := s.s2c[1..], packs := Turned(s.packs, s.s2c[0].name, ClientRecv))
    case ClientDispatches =>
      var r := s.recv.r;
      if r.name !in s.packs then s.(recv := RError)
      else s.(packs := s.packs[r.name := s.packs[r.name].(k := KPut(r), turn := ClientHandling)], recv := RIdle)
    case ClientPuts(n) =>
      var p := s.packs[n];
      s.(packs := s.packs[n := p.(k := KAck(p.k.r), delivered := p.delivered + [Got(p.k.r.idx, p.k.r.cert)])])
    case ClientAcks(n) =>
      var p := s.packs[n];
      s.(packs := s.packs[n := p.(k := KIdle, turn := ClientSender)], send := SHas(Req([n], p.k.r.version, None)))
    case ClientSends =>
      s.(c2s := s.c2s + [s.send.q], send := SIdle,
         packs := if |s.send.q.names| == 1 then Turned(s.packs, s.send.q.names[0], OnC2S) else s.packs)
    case WatcherTakes(n) => s.(packs := s.packs[n := TakeMove(s.packs[n])])
  }

  predicate Executes(c: Config, s: State, acts: seq<Action>)
    decreases |acts|
  {
    acts == [] || (Enabled(s, acts[0]) && Executes(c, Next(c, s, acts[0]), acts[1..]))
  }

  function After(c: Config, s: State, acts: seq<Action>): State
    requires Executes(c, s, acts)
    decreases |acts|
  {
    if acts == [] then s else After(c, Next(c, s, acts[0]), acts[1..])
  }

  ghost predicate Reachable(c: Config, s: State) {
    exists first: map<Name, Cert>, acts ::
      first.Keys == NameSet(c) && Executes(c, Init(c, first), acts) && After(c, Init(c, first), acts) == s
  }
}
