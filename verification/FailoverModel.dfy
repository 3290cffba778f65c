/** The gRPC client's failover state machine as a step relation.

    A dispatcher reads a one-slot channel and spawns four kinds of goroutine
    (main, failover, fallback, restart). One step of the model is one access to
    state that another goroutine can see: a channel operation, a context
    cancellation or check, an atomic flag, a read of the mutable session field. */
module FailoverModel {
  import opened Base

  /** The five dispatcher states that travel through the channel. */
  datatype Msg = Stop | Main | Failover | TryFallback | RestartMain

  datatype Config = Config(retryCount: int, standbyExists: bool)

  /** Program points of the dispatch loop. The four points from `DCancelOld` on
      are the successive effects of the FAILOVER case. */
  datatype Dispatcher =
    | DSelect
    | DCancelOld | DNewSession | DStoreActive | DSpawnFailover
    | DSpawnFallback | DSpawnRestart | DSpawnMain
    | DSend(m: Msg)
    | DStopCancel | DReturn | DGone

  /** Program points of GRPCMain itself. */
  datatype Caller = CSendMain | CAwaitRoot | CSendStop | CKill | CWait | CReturned

  /** Program points of every spawned goroutine. Session ids and channel
      generations captured by a goroutine are part of its program point;
      `own` is the session the failover goroutine was spawned for. */
  datatype Thread =
    | Gone
      // handleMain
    | MRun | MEnded(short: bool) | MCount(short: bool) | MBudget | MBackoff | MChoose | MSend(m: Msg) | MExit
      // handleFailover
    | FTop(own: nat, n: nat) | FEnter(own: nat, n: nat) | FStream(own: nat, n: nat, ctx: nat)
    | FAfter(own: nat, n: nat, short: bool) | FBudget(own: nat, n: nat)
    | FSleep(own: nat, n: nat, ctx: nat, pause: Pause)
    | FDone(own: nat) | FStore(own: nat)
      // handleFallback
    | BLoad(on: nat) | BWait(on: nat, gen: nat) | BKill(on: nat, gen: nat) | BCancel(on: nat, gen: nat) | BExit
      // handleRestart
    | RWait(on: nat) | RSend | RExit

  /** The retry backoff, or the reconnect interval once the retry limit is reached. */
  datatype Pause = Backoff | Reconnect

  /** What happens to a retry counter, in order of occurrence. */
  datatype Event = Short | Long | GaveUp

  datatype Kill = Kill(killer: nat, victim: Option<nat>)

  /** What the goroutines use to coordinate. `recvGen` names the main client's
      current `Received` channel; every earlier generation is closed. `stopSess`,
      `fired` and `kills` are history: no step reads them. */
  datatype Shared = Shared(
    root: bool,
    slot: Option<Msg>,
    disp: Dispatcher,
    caller: Caller,
    sess: nat,
    cancelled: set<nat>,
    active: bool,
    standbyCancel: Option<nat>,
    recvGen: nat,
    stopSess: nat,
    fired: map<nat, nat>,
    kills: seq<Kill>)

  /** handleMain's retry counter, and history: `log` records what happened to it, `standbyLog`
      what happened to the counter of the newest failover goroutine, `started` that a main
      goroutine exists or existed, `dropped` that a restart goroutine gave up before Stop. */
  datatype Book = Book(retry: nat, log: seq<Event>, standbyLog: seq<Event>, started: bool, dropped: bool)

  /** `wg` is the streamer's share of the daemon's wait group. */
  datatype State = State(g: Shared, book: Book, threads: seq<Thread>, wg: int)

  /** GRPCMain has built the streamer and started the dispatcher. */
  function Init(): State {
    State(Shared(false, None, DSelect, CSendMain, 0, {}, false, None, 0, 0, map[], []),
          Book(0, [], [], false, false), [], 1)
  }

  /** Sessions are children of the root context. */
  predicate Cancelled(g: Shared, k: nat) {
    g.root || k in g.cancelled
  }

  /** One atomic step. `alt` resolves a choice the code leaves to the runtime or
      to the environment: which ready case a select takes (`true` is the first
      case in source order), or how long a stream lived (`true` is shorter than
      the retry window). */
  datatype Action =
    | StopCalled
    | MainReceives
    | CallerStep(alt: bool)
    | DispStep(alt: bool)
    | ThreadStep(i: nat, alt: bool)

  predicate EnabledCaller(g: Shared, wg: int, alt: bool) {
    match g.caller
    case CSendMain | CSendStop => if alt then g.slot.None? else g.root
    case CAwaitRoot => g.root
    case CKill => true
    case CWait => wg == 0
    case CReturned => false
  }

  predicate EnabledDisp(g: Shared, alt: bool) {
    match g.disp
    case DSelect => if alt then g.slot.Some? else g.root
    case DSend(_) => if alt then g.slot.None? else g.root
    case DGone => false
    case _ => true
  }

  predicate EnabledThread(g: Shared, t: Thread, alt: bool) {
    match t
    case Gone => false
    case MBackoff => alt || g.root
    case MSend(_) => if alt then g.slot.None? else g.root
    case FSleep(_, _, ctx, _) => alt || Cancelled(g, ctx)
    case BWait(on, gen) => if alt then gen < g.recvGen else Cancelled(g, on)
    case RWait(on) => alt || Cancelled(g, on)
    case RSend => if alt then g.slot.None? else g.root
    case _ => true
  }

  /** The receive loop of a main stream may outlive the `Stream` call that started
      it, so a message can arrive at any time after the first stream began. */
  predicate Enabled(s: State, a: Action) {
    match a
    case StopCalled => !s.g.root
    case MainReceives => s.book.started
    case CallerStep(alt) => EnabledCaller(s.g, s.wg, alt)
    case DispStep(alt) => EnabledDisp(s.g, alt)
    case ThreadStep(i, alt) => i < |s.threads| && EnabledThread(s.g, s.threads[i], alt)
  }

  /** GRPCMain: send MAIN, wait for Stop, send STOP, kill both clients, wait. */
  function CallerMove(g: Shared, alt: bool): Shared {
    match g.caller
    case CSendMain => if alt then g.(slot := Some(Main), caller := CAwaitRoot) else g.(caller := CAwaitRoot)
    case CAwaitRoot => g.(caller := CSendStop)
    case CSendStop => if alt then g.(slot := Some(Stop), caller := CKill) else g.(caller := CKill)
    case CKill => g.(caller := CWait)
    case CWait | CReturned => g.(caller := CReturned)
  }

  function Entered(m: Msg): Dispatcher {
    match m
    case Stop => DStopCancel
    case Main => DSpawnMain
    case Failover => DCancelOld
    case TryFallback => DSpawnFallback
    case RestartMain => DSpawnRestart
  }

  /** The dispatcher's own effect on the shared state. */
  function DispMove(g: Shared, alt: bool): Shared
    requires EnabledDisp(g, alt)
  {
    match g.disp
    case DSelect => if alt then g.(slot := None, disp := Entered(g.slot.value)) else g.(disp := DStopCancel)
    case DCancelOld => g.(cancelled := g.cancelled + {g.sess}, disp := DNewSession)
    case DNewSession => g.(sess := g.sess + 1, disp := DStoreActive)
    case DStoreActive => g.(active := true, disp := DSpawnFailover)
    case DSpawnFailover => g.(disp := DSend(TryFallback))
    case DSpawnFallback => g.(disp := DSend(RestartMain))
    case DSpawnRestart => g.(disp := DSelect)
    case DSpawnMain => g.(disp := DSelect)
    case DSend(m) => if alt then g.(slot := Some(m), disp := DSelect) else g.(disp := DSelect)
    case DStopCancel => g.(cancelled := g.cancelled + {g.sess}, disp := DReturn)
    case DReturn => g.(disp := DGone)
  }

  /** The goroutine a dispatcher step spawns. */
  function Spawned(g: Shared): seq<Thread> {
    match g.disp
    case DSpawnFailover => [FTop(g.sess, 0)]
    case DSpawnFallback => [BLoad(g.sess)]
    case DSpawnRestart => [RWait(g.sess)]
    case DSpawnMain => [MRun]
    case _ => []
  }

  /** A spawned goroutine's next program point. */
  function ThreadMove(c: Config, g: Shared, retry: nat, t: Thread, alt: bool): Thread {
    match t
    case Gone => Gone
    // handleMain
    case MRun => MEnded(alt)
    case MEnded(short) => if g.root then MSend(Stop) else MCount(short)
    case MCount(short) => if short then MBudget else MSend(Main)
    case MBudget => if retry < c.retryCount then MBackoff else MChoose
    case MBackoff => if alt then MSend(Main) else MExit
    case MChoose => MSend(if c.standbyExists && !g.active then Failover else RestartMain)
    case MSend(_) => MExit
    case MExit => Gone
    // handleFailover
    case FTop(own, n) => if Cancelled(g, g.sess) then FDone(own) else FEnter(own, n)
    case FEnter(own, n) => FStream(own, n, g.sess)
    case FStream(own, n, _) => FAfter(own, n, alt)
    case FAfter(own, n, short) =>
      if Cancelled(g, g.sess) then FDone(own) else if short then FBudget(own, n + 1) else FTop(own, 0)
    case FBudget(own, n) =>
      if n < c.retryCount then FSleep(own, n, g.sess, Backoff) else FSleep(own, 0, g.sess, Reconnect)
    case FSleep(own, n, _, _) => if alt then FTop(own, n) else FDone(own)
    case FDone(own) => FStore(own)
    case FStore(_) => Gone
    // handleFallback
    case BLoad(on) => BWait(on, g.recvGen)
    case BWait(on, gen) => if alt then BKill(on, gen) else BExit
    case BKill(on, gen) => BCancel(on, gen)
    case BCancel(on, gen) => BExit
    case BExit => Gone
    // handleRestart
    case RWait(_) => if alt then RSend else RExit
    case RSend => RExit
    case RExit => Gone
  }

  /** Its effect on the shared state. */
  function SharedMove(g: Shared, t: Thread, alt: bool): Shared {
    match t
    case MSend(m) => if alt then g.(slot := Some(m)) else g
    case FEnter(_, _) => g.(standbyCancel := Some(g.sess))
    case FStream(_, _, _) => g.(standbyCancel := None)
    case FStore(_) => g.(active := false)
    case BKill(on, _) => g.(kills := g.kills + [Kill(on, g.standbyCancel)])
    case BCancel(on, gen) => g.(cancelled := g.cancelled + {on}, fired := g.fired[on := gen])
    case RSend => if alt then g.(slot := Some(Main)) else g
    case _ => g
  }

  /** Its effect on the retry counter and on the histories. */
  function BookMove(c: Config, b: Book, g: Shared, t: Thread, alt: bool): Book {
    match t
    case MCount(short) =>
      if short then b.(retry := b.retry + 1, log := b.log + [Short]) else b.(retry := 0, log := b.log + [Long])
    case MBudget => if b.retry < c.retryCount then b else b.(retry := 0, log := b.log + [GaveUp])
    case FAfter(_, _, short) =>
      if Cancelled(g, g.sess) then b else b.(standbyLog := b.standbyLog + [if short then Short else Long])
    case FBudget(_, n) => if n < c.retryCount then b else b.(standbyLog := b.standbyLog + [GaveUp])
    case RWait(_) => if alt || g.root then b else b.(dropped := true)
    case _ => b
  }

  /** A new failover goroutine counts from zero. */
  function SpawnBook(b: Book, d: Dispatcher): Book {
    match d
    case DSpawnMain => b.(started := true)
    case DSpawnFailover => b.(standbyLog := [])
    case _ => b
  }

  /** The step calls `wg.Done`. */
  predicate CallsDone(t: Thread) {
    t.MExit? || t.FDone? || t.BExit? || t.RExit?
  }

  function Next(c: Config, s: State, a: Action): State
    requires Enabled(s, a)
  {
    match a
    case StopCalled => s.(g := s.g.(root := true, stopSess := s.g.sess))
    case MainReceives => s.(g := s.g.(recvGen := s.g.recvGen + 1))
    case CallerStep(alt) => s.(g := CallerMove(s.g, alt))
    case DispStep(alt) =>
      State(DispMove(s.g, alt),
            SpawnBook(s.book, s.g.disp),
            s.threads + Spawned(s.g),
            s.wg + |Spawned(s.g)| - if s.g.disp == DReturn then 1 else 0)
    case ThreadStep(i, alt) =>
      var t := s.threads[i];
      State(SharedMove(s.g, t, alt),
            BookMove(c, s.book, s.g, t, alt),
            s.threads[i := ThreadMove(c, s.g, s.book.retry, t, alt)],
            s.wg - if CallsDone(t) then 1 else 0)
  }

  /** `acts` can be taken one after another from `s`. */
  predicate Executes(c: Config, s: State, acts: seq<Action>)
    decreases |acts|
  {
    acts == [] || (Enabled(s, acts[0]) && Executes(c, Next(c, s, acts[0]), acts[1..]))
  }

  /** The state those steps lead to. */
  function After(c: Config, s: State, acts: seq<Action>): State
    requires Executes(c, s, acts)
    decreases |acts|
  {
    if acts == [] then s else After(c, Next(c, s, acts[0]), acts[1..])
  }

  lemma {:induction false} ExecutesConcat(c: Config, s: State, p: seq<Action>, q: seq<Action>)
    requires Executes(c, s, p) && Executes(c, After(c, s, p), q)
    ensures Executes(c, s, p + q) && After(c, s, p + q) == After(c, After(c, s, p), q)
    decreases |p|
  {
    if p == [] {
      assert p + q == q;
    } else {
      assert (p + q)[1..] == p[1..] + q;
      ExecutesConcat(c, Next(c, s, p[0]), p[1..], q);
    }
  }

  /** Every run of the streamer, from GRPCMain's start, ends in a reachable state. */
  ghost predicate Reachable(c: Config, s: State) {
    exists acts :: Executes(c, Init(), acts) && After(c, Init(), acts) == s
  }

  /** A run can be extended by one step at its end. */
  lemma ReachableStep(c: Config, s: State, a: Action)
    requires Reachable(c, s) && Enabled(s, a)
    ensures Reachable(c, Next(c, s, a))
  {
    var acts :| Executes(c, Init(), acts) && After(c, Init(), acts) == s;
    var n := Next(c, s, a);
    assert Executes(c, n, [a][1..]) && After(c, n, [a][1..]) == n;
    ExecutesConcat(c, Init(), acts, [a]);
  }
}
