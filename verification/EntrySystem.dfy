/** Any number of consumers, request handlers and renewers working on one cache
    entry, together with the cache-file writer, as a step relation. A section
    under `stateMu` is one step; every gap between sections is a program point. */
module EntrySystem {
  import opened Base
  import opened EntryModel

  datatype Config = Config(lifetime: int)

  /** How a call of `renew` ends: it found a certificate valid at its check, it published
      one itself, or it returns an error. The fields are history. */
  datatype Outcome = Found(ver: nat, cert: Cert, at: int) | Made(ver: nat, cert: Cert) | Failed

  /** Program points of `renew`. */
  datatype RenewPc =
    | RStart | RLock | RSnap | RDecide(cur: Cert) | ROrder | RObtain(vb: int)
    | RPublish(cert: Cert) | RHandOff(ver: nat, cert: Cert) | RUnlock(out: Outcome) | RExit(out: Outcome)

  /** Program points of `WaitForUpdate`. */
  datatype WaitPc = WBegin | WParked(ch: nat) | WReread(viaCtx: bool)

  /** Program points of the SDS server's handleCert between subscribe and release.
      `last` is the certificate offered before the wait. */
  datatype SdsPc =
    | SJoin | SSpawn(ctx: nat) | SFirst | SCheck(cert: Cert, seen: nat)
    | SWait(seen: nat, last: Option<Cert>, w: WaitPc) | SWoke(seen: nat, v: nat, viaCtx: bool) | SSnap(floor: nat)
    | SOffer(cert: Cert, ver: nat) | SAck(cert: Cert, ver: nat)

  /** Program points of serveHttps. `ver` is history: the version whose certificate is
      being served; the code keeps only `seen`. */
  datatype HttpsPc =
    | HJoin | HSpawn(ctx: nat) | HFirst | HCheck(cert: Cert, ver: nat, seen: nat)
    | HWait(seen: nat, w: WaitPc) | HWoke(seen: nat, v: nat, viaCtx: bool) | HSnap(seen: nat)
    | HServe(cert: Cert, ver: nat, seen: nat, w: WaitPc)
    | HRebind(seen: nat, v: nat, viaCtx: bool) | HSnapNext(seen: nat)

  /** `done` is the cancellation of the stream's or request's own context; `log` is
      history: the versions this handler has offered. A reply remembers its version and
      how `renew` ended before it (None if the entry had subscribers and it was not called). */
  datatype Proc =
    | Gone
    | Renewer(ctx: nat, pc: RenewPc) | RenewerTimer(ctx: nat)
    | ReqCheck(done: bool) | ReqRenew(done: bool, pc: RenewPc) | ReqReply(done: bool, how: Option<Outcome>)
    | Replied(cert: Cert, ver: nat, how: Option<Outcome>)
    | Sds(done: bool, log: seq<nat>, spc: SdsPc)
    | Https(hpc: HttpsPc)
    | Leaving | Cancelling(cancel: Option<nat>)

  /** Renewer contexts created so far, and the cancelled ones. */
  datatype Contexts = Contexts(made: nat, cancelled: set<nat>)

  /** An ACME call: when it started, the validity it asked for, whether it was stored. */
  datatype Order = Order(start: int, vb: int, stored: bool)

  /** `renewMu` and the history of ACME calls. */
  datatype Lock = Lock(holder: Option<nat>, orders: seq<Order>)

  /** What travels to the cache file; other entries share the queue. */
  datatype Item = Own(ver: nat, cert: Cert) | Foreign

  datatype Stored = Stored(ver: nat, cert: Cert)

  datatype Writer = WSelect | WPersist(item: Item, draining: bool) | WDrain | WGone

  const QUEUE_CAP := 10

  /** `store` is this entry's record in the writer's map, `file` its record in
      cache.json (None while the file is torn). Version 0 stands for whatever was
      loaded at start-up. `best`, `clean` (the last write
      of the file succeeded), `accepted` and `abandoned` are history. */
  datatype Disk = Disk(
    queue: seq<Item>,
    writer: Writer,
    store: Stored,
    file: Option<Stored>,
    best: nat,
    clean: bool,
    accepted: set<nat>,
    abandoned: set<nat>)

  /** `minted[v]` is history: the certificate published as version `v`. */
  datatype Shared = Shared(
    e: Entry,
    minted: seq<Cert>,
    ctxs: Contexts,
    lock: Lock,
    d: Disk,
    now: int,
    root: bool)

  datatype State = State(g: Shared, procs: seq<Proc>)

  function Init(cert: Cert, now: int): State {
    State(Shared(NewEntry(cert), [cert], Contexts(0, {}), Lock(None, []),
                 Disk([], WSelect, Stored(0, cert), Some(Stored(0, cert)), 0, true, {}, {}), now, false), [])
  }

  datatype Kind = NewRequest | NewSds | NewHttps

  function Arrived(k: Kind): Proc {
    match k
    case NewRequest => ReqCheck(false)
    case NewSds => Sds(false, [], SJoin)
    case NewHttps => Https(HJoin)
  }

  /** `alt` picks a ready select case (`true` is the first in source order) or the
      outcome of a foreign call; `fc` and `key` are what ACME returns. */
  datatype Action =
    | Tick(d: nat)
    | StopCalled
    | Arrive(kind: Kind)
    | ContextDone(i: nat)
    | ListenerFails(i: nat)
    | ForeignPut
    | WriterStep(alt: bool, torn: bool)
    | ProcStep(i: nat, alt: bool, fc: string, key: string)

  // ---------------------------------------------------------------- contexts

  /** The context `p` runs under is done. */
  predicate CtxDone(g: Shared, p: Proc) {
    match p
    case Renewer(ctx, _) => g.root || ctx in g.ctxs.cancelled
    case RenewerTimer(ctx) => g.root || ctx in g.ctxs.cancelled
    case ReqCheck(done) => done
    case ReqRenew(done, _) => done
    case ReqReply(done, _) => done
    case Sds(done, _, _) => done
    case _ => g.root
  }

  // ---------------------------------------------------------------- enabledness

  predicate EnabledRenew(g: Shared, done: bool, pc: RenewPc, alt: bool) {
    match pc
    case RLock => g.lock.holder.None?
    case RHandOff(_, _) => if alt then |g.d.queue| < QUEUE_CAP else done
    case _ => true
  }

  predicate EnabledWait(e: Entry, done: bool, w: WaitPc, alt: bool) {
    w.WParked? ==> if alt then w.ch in e.closed else done
  }

  predicate EnabledProc(g: Shared, p: Proc, alt: bool) {
    match p
    case Gone | Replied(_, _, _) => false
    case Renewer(_, pc) => EnabledRenew(g, CtxDone(g, p), pc, alt)
    case ReqRenew(done, pc) => EnabledRenew(g, done, pc, alt)
    case RenewerTimer(_) => alt || CtxDone(g, p)
    case Sds(done, _, SWait(_, _, w)) => EnabledWait(g.e, done, w, alt)
    case Sds(done, _, SOffer(_, _)) => alt || done
    case Sds(done, _, SAck(_, _)) => alt || done
    case Https(HWait(_, w)) => EnabledWait(g.e, g.root, w, alt)
    case Https(HServe(_, _, _, w)) => EnabledWait(g.e, g.root, w, alt)
    case _ => true
  }

  predicate EnabledWriter(d: Disk, root: bool, alt: bool) {
    match d.writer
    case WSelect => if alt then root else d.queue != []
    case WDrain => if alt then d.queue != [] else d.queue == []
    case WPersist(_, _) => true
    case WGone => false
  }

  /** A stream or a request, whose own context can end. */
  predicate HasOwnContext(p: Proc) {
    p.Sds? || p.ReqCheck? || p.ReqRenew? || p.ReqReply?
  }

  predicate Enabled(s: State, a: Action) {
    match a
    case Tick(_) => true
    case StopCalled => !s.g.root
    case Arrive(_) => true
    case ContextDone(i) => i < |s.procs| && HasOwnContext(s.procs[i])
    case ListenerFails(i) => i < |s.procs| && s.procs[i].Https? && s.procs[i].hpc.HServe?
    case ForeignPut => |s.g.d.queue| < QUEUE_CAP
    case WriterStep(alt, _) => EnabledWriter(s.g.d, s.g.root, alt)
    case ProcStep(i, alt, _, _) => i < |s.procs| && EnabledProc(s.g, s.procs[i], alt)
  }

  // ---------------------------------------------------------------- program points

  function RenewMove(c: Config, g: Shared, done: bool, pc: RenewPc, a: Action): RenewPc
    requires a.ProcStep?
  {
    match pc
    case RStart => if done then RExit(Failed) else RLock
    case RLock => RSnap
    case RSnap => RDecide(g.e.cert)
    case RDecide(cur) => if IsValid(cur, g.now) then RUnlock(Found(g.e.version, cur, g.now)) else ROrder
    case ROrder => RObtain(TruncateHour(g.now) + c.lifetime)
    case RObtain(vb) => if a.alt then RPublish(Cert(a.fc, a.key, vb, g.now)) else RUnlock(Failed)
    case RPublish(cert) => RHandOff(g.e.version + 1, cert)
    case RHandOff(ver, cert) => RUnlock(Made(ver, cert))
    case RUnlock(out) => RExit(out)
    case RExit(out) => RExit(out)
  }

  function SdsMove(g: Shared, done: bool, log: seq<nat>, pc: SdsPc, alt: bool): Proc {
    match pc
    case SJoin => Sds(done, log, if g.e.subscribing == 0 then SSpawn(g.ctxs.made) else SFirst)
    case SSpawn(_) => Sds(done, log, SFirst)
    case SFirst => Sds(done, log, SCheck(g.e.cert, g.e.version))
    case SCheck(cert, seen) =>
      Sds(done, log, if IsValid(cert, g.now) then SOffer(cert, seen) else SWait(seen, None, WBegin))
    case SWait(seen, last, w) =>
      Sds(done, log,
          match w
          case WBegin =>
            (match BeginWait(g.e, seen)
             case Return(v) => SWoke(seen, v, false)
             case Park(ch) => SWait(seen, last, WParked(ch)))
          case WParked(_) => SWait(seen, last, WReread(!alt))
          case WReread(viaCtx) => SWoke(seen, g.e.version, viaCtx))
    case SWoke(seen, _, _) => if done then Leaving else Sds(done, log, SSnap(seen))
    case SSnap(_) => Sds(done, log, SOffer(g.e.cert, g.e.version))
    case SOffer(cert, ver) => if alt then Sds(done, log + [ver], SAck(cert, ver)) else Leaving
    case SAck(cert, ver) => if alt then Sds(done, log, SWait(ver, Some(cert), WBegin)) else Leaving
  }

  function HttpsMove(g: Shared, pc: HttpsPc, alt: bool): Proc {
    match pc
    case HJoin => Https(if g.e.subscribing == 0 then HSpawn(g.ctxs.made) else HFirst)
    case HSpawn(_) => Https(HFirst)
    case HFirst => Https(HCheck(g.e.cert, g.e.version, g.e.version))
    case HCheck(cert, ver, seen) =>
      if !IsValid(cert, g.now) then Https(HWait(seen, WBegin))
      else if g.root then Leaving else Https(HServe(cert, ver, seen, WBegin))
    case HWait(seen, w) =>
      Https(match w
            case WBegin =>
              (match BeginWait(g.e, seen)
               case Return(v) => HWoke(seen, v, false)
               case Park(ch) => HWait(seen, WParked(ch)))
            case WParked(_) => HWait(seen, WReread(!alt))
            case WReread(viaCtx) => HWoke(seen, g.e.version, viaCtx))
    case HWoke(_, v, _) => if g.root then Leaving else Https(HSnap(v))
    case HSnap(seen) => Https(HCheck(g.e.cert, g.e.version, seen))
    case HServe(cert, ver, seen, w) =>
      Https(match w
            case WBegin =>
              (match BeginWait(g.e, seen)
               case Return(v) => HRebind(seen, v, false)
               case Park(ch) => HServe(cert, ver, seen, WParked(ch)))
            case WParked(_) => HServe(cert, ver, seen, WReread(!alt))
            case WReread(viaCtx) => HRebind(seen, g.e.version, viaCtx))
    case HRebind(_, v, _) => Https(HSnapNext(v))
    case HSnapNext(seen) =>
      if g.root then Leaving else Https(HServe(g.e.cert, g.e.version, seen, WBegin))
  }

  function ProcMove(c: Config, g: Shared, p: Proc, a: Action): Proc
    requires a.ProcStep?
  {
    match p
    case Gone => Gone
    case Renewer(ctx, pc) =>
      if pc.RExit? then (if pc.out.Failed? && CtxDone(g, p) then Gone else RenewerTimer(ctx))
      else Renewer(ctx, RenewMove(c, g, CtxDone(g, p), pc, a))
    case RenewerTimer(ctx) => if a.alt then Renewer(ctx, RStart) else Gone
    case ReqCheck(done) => if g.e.subscribing != 0 then ReqReply(done, None) else ReqRenew(done, RStart)
    case ReqRenew(done, pc) =>
      if pc.RExit? then (if pc.out.Failed? then Gone else ReqReply(done, Some(pc.out)))
      else ReqRenew(done, RenewMove(c, g, done, pc, a))
    case ReqReply(_, how) => Replied(g.e.cert, g.e.version, how)
    case Replied(_, _, _) => p
    case Sds(done, log, pc) => SdsMove(g, done, log, pc, a.alt)
    case Https(pc) => HttpsMove(g, pc, a.alt)
    case Leaving => Cancelling(ReleaseCancels(g.e))
    case Cancelling(_) => Gone
  }

  /** The renewer goroutine a step starts. */
  function Spawned(p: Proc): seq<Proc> {
    match p
    case Sds(_, _, SSpawn(ctx)) => [Renewer(ctx, RStart)]
    case Https(HSpawn(ctx)) => [Renewer(ctx, RStart)]
    case _ => []
  }

  // ---------------------------------------------------------------- effects on shared state

  /** The `renew` program point of a process, if it is inside `renew`. */
  function Rpc(p: Proc): Option<RenewPc> {
    match p
    case Renewer(_, pc) => Some(pc)
    case ReqRenew(_, pc) => Some(pc)
    case _ => None
  }

  predicate Joins(p: Proc) {
    p == Https(HJoin) || (p.Sds? && p.spc.SJoin?)
  }

  predicate Publishes(p: Proc) {
    Rpc(p).Some? && Rpc(p).value.RPublish?
  }

  function EntryMove(e: Entry, made: nat, p: Proc): Entry {
    if Joins(p) then Subscribe(e, made)
    else if p.Leaving? then Release(e)
    else if Publishes(p) then Publish(e, Rpc(p).value.cert)
    else e
  }

  function MintedMove(minted: seq<Cert>, p: Proc): seq<Cert> {
    if Publishes(p) then minted + [Rpc(p).value.cert] else minted
  }

  function CtxMove(x: Contexts, e: Entry, p: Proc): Contexts {
    if Joins(p) && e.subscribing == 0 then x.(made := x.made + 1)
    else if p.Cancelling? && p.cancel.Some? then x.(cancelled := x.cancelled + {p.cancel.value})
    else x
  }

  function MarkStored(orders: seq<Order>): seq<Order> {
    if orders == [] then orders else orders[|orders| - 1 := orders[|orders| - 1].(stored := true)]
  }

  function LockMove(c: Config, l: Lock, now: int, i: nat, pc: RenewPc): Lock {
    match pc
    case RLock => l.(holder := Some(i))
    case ROrder => l.(orders := l.orders + [Order(now, TruncateHour(now) + c.lifetime, false)])
    case RPublish(_) => l.(orders := MarkStored(l.orders))
    case RUnlock(_) => l.(holder := None)
    case _ => l
  }

  function DiskMove(d: Disk, pc: RenewPc, alt: bool): Disk {
    match pc
    case RHandOff(ver, cert) =>
      if alt then d.(queue := d.queue + [Own(ver, cert)], accepted := d.accepted + {ver})
      else d.(abandoned := d.abandoned + {ver})
    case _ => d
  }

  function SharedMove(c: Config, g: Shared, i: nat, p: Proc, alt: bool): Shared {
    var g := g.(e := EntryMove(g.e, g.ctxs.made, p),
                minted := MintedMove(g.minted, p),
                ctxs := CtxMove(g.ctxs, g.e, p));
    if Rpc(p).Some?
    then g.(lock := LockMove(c, g.lock, g.now, i, Rpc(p).value), d := DiskMove(g.d, Rpc(p).value, alt))
    else g
  }

  /** listenUpdate. saveEntry updates the map and rewrites the file; a failed write
      either leaves the file as it was or tears it. */
  function WriterMove(d: Disk, alt: bool, torn: bool): Disk {
    match d.writer
    case WSelect =>
      if alt then d.(writer := WDrain)
      else if d.queue == [] then d else d.(queue := d.queue[1..], writer := WPersist(d.queue[0], false))
    case WDrain =>
      if d.queue == [] then d.(writer := WGone) else d.(queue := d.queue[1..], writer := WPersist(d.queue[0], true))
    case WPersist(item, draining) =>
      var d := d.(writer := if draining then WDrain else WSelect,
                  store := if item.Own? then Stored(item.ver, item.cert) else d.store);
      if alt then d.(file := Some(d.store), best := d.store.ver, clean := true)
      else if torn then d.(file := None, clean := false) else d.(clean := false)
    case WGone => d
  }

  function MarkDone(p: Proc): Proc {
    match p
    case ReqCheck(_) => ReqCheck(true)
    case ReqRenew(_, pc) => ReqRenew(true, pc)
    case ReqReply(_, how) => ReqReply(true, how)
    case Sds(_, log, pc) => Sds(true, log, pc)
    case _ => p
  }

  function Next(c: Config, s: State, a: Action): State
    requires Enabled(s, a)
  {
    match a
    case Tick(d) => s.(g := s.g.(now := s.g.now + d))
    case StopCalled => s.(g := s.g.(root := true))
    case Arrive(k) => s.(procs := s.procs + [Arrived(k)])
    case ContextDone(i) => s.(procs := s.procs[i := MarkDone(s.procs[i])])
    case ListenerFails(i) => s.(procs := s.procs[i := Leaving])
    case ForeignPut => s.(g := s.g.(d := s.g.d.(queue := s.g.d.queue + [Foreign])))
    case WriterStep(alt, torn) => s.(g := s.g.(d := WriterMove(s.g.d, alt, torn)))
    case ProcStep(i, alt, _, _) =>
      State(SharedMove(c, s.g, i, s.procs[i], alt), s.procs[i := ProcMove(c, s.g, s.procs[i], a)] + Spawned(s.procs[i]))
  }

  predicate Executes(c: Config, s: State, acts: seq<Action>)
    decreases |acts|
  {
    acts == [] || (Enabled(s, acts[0]) && Executes(c, Next(c, s, acts[0]), acts[1..]))
  }

  function After(c: Config, s: State, acts: seq<Action>): State
    requires Executes(c, s, acts)
    decreases |acts|
  {
    if acts == [] then s else After(c, Next(c, s, acts[0]), acts[1..])
  }

  lemma {:induction false} Concat(c: Config, s: State, p: seq<Action>, q: seq<Action>)
    requires Executes(c, s, p) && Executes(c, After(c, s, p), q)
    ensures Executes(c, s, p + q) && After(c, s, p + q) == After(c, After(c, s, p), q)
    decreases |p|
  {
    if p == [] {
      assert p + q == q;
    } else {
      assert (p + q)[1..] == p[1..] + q;
      Concat(c, Next(c, s, p[0]), p[1..], q);
    }
  }

  /** Every run, from an entry freshly created or seeded from disk, ends in a reachable state. */
  ghost predicate Reachable(c: Config, s: State) {
    exists cert, now, acts :: Executes(c, Init(cert, now), acts) && After(c, Init(cert, now), acts) == s
  }
}
