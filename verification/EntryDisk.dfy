/** The way of a renewed certificate to cache.json. */
module EntryDisk {
  import opened Base
  import opened EntryModel
  import opened EntrySystem
  import Orders = EntryOrders
  import Broadcast = EntryBroadcast

  /** Everything accepted by the queue and not yet saved, oldest first. */
  function Pipeline(d: Disk): seq<Item> {
    (if d.writer.WPersist? then [d.writer.item] else []) + d.queue
  }

  ghost predicate PipelineOk(items: seq<Item>, store: nat, minted: seq<Cert>) {
    && (forall i :: 0 <= i < |items| && items[i].Own? ==>
          store < items[i].ver < |minted| && items[i].cert == minted[items[i].ver])
    && (forall i, j :: 0 <= i < j < |items| && items[i].Own? && items[j].Own? ==> items[i].ver < items[j].ver)
  }

  ghost predicate InPipeline(items: seq<Item>, v: nat) {
    exists i :: 0 <= i < |items| && items[i].Own? && items[i].ver == v
  }

  ghost predicate Records(minted: seq<Cert>, r: Stored) {
    r.ver < |minted| && minted[r.ver] == r.cert
  }

  ghost predicate DiskOk(d: Disk, minted: seq<Cert>) {
    && PipelineOk(Pipeline(d), d.store.ver, minted)
    && Records(minted, d.store)
    && (d.file.Some? ==> Records(minted, d.file.value) && d.file.value.ver == d.best)
    && d.best <= d.store.ver
    && (d.clean ==> d.file == Some(d.store))
    && forall v :: v in d.accepted ==> v <= d.store.ver || InPipeline(Pipeline(d), v)
  }

  /** A caller about to enqueue holds the newest version, which nobody else has enqueued. */
  ghost predicate HandOk(d: Disk, minted: seq<Cert>, pc: RenewPc) {
    pc.RHandOff? ==>
      && pc.ver + 1 == |minted| && minted[pc.ver] == pc.cert && d.store.ver < pc.ver
      && forall k :: 0 <= k < |Pipeline(d)| && Pipeline(d)[k].Own? ==> Pipeline(d)[k].ver < pc.ver
  }

  /** The process is about to enqueue version `v`. */
  predicate InHand(p: Proc, v: nat) {
    Rpc(p).Some? && Rpc(p).value.RHandOff? && Rpc(p).value.ver == v
  }

  /** The newest version is saved, queued, given up, or in the hand of the lock's holder. */
  ghost predicate NewestAccounted(s: State)
    requires |s.g.minted| > 0
  {
    var v := |s.g.minted| - 1;
    || v == s.g.d.store.ver
    || InPipeline(Pipeline(s.g.d), v)
    || v in s.g.d.abandoned
    || exists i :: 0 <= i < |s.procs| && InHand(s.procs[i], v)
  }

  ghost predicate Inv(s: State) {
    && |s.g.minted| > 0
    && DiskOk(s.g.d, s.g.minted)
    && (forall i :: 0 <= i < |s.procs| && Rpc(s.procs[i]).Some? ==> HandOk(s.g.d, s.g.minted, Rpc(s.procs[i]).value))
    && NewestAccounted(s)
  }

  // ---------------------------------------------------------------- the writer

  /** The oldest item leaves the pipeline and becomes the record. */
  lemma PipelineShrinks(p: seq<Item>, store: nat, minted: seq<Cert>)
    requires PipelineOk(p, store, minted) && p != []
    ensures var store' := if p[0].Own? then p[0].ver else store;
            && store <= store' && PipelineOk(p[1..], store', minted)
            && forall v: nat :: InPipeline(p, v) ==> InPipeline(p[1..], v) || v == store'
  {
    forall k | 0 < k < |p| && p[k].Own? ensures InPipeline(p[1..], p[k].ver) {
      assert p[1..][k - 1] == p[k];
    }
  }

  /** How a writer step relates the records before and after. */
  ghost predicate WriterEffect(d: Disk, d': Disk) {
    && d'.abandoned == d.abandoned && d'.accepted == d.accepted
    && d.best <= d'.best && d.store.ver <= d'.store.ver
    && (forall k :: 0 <= k < |Pipeline(d')| ==> Pipeline(d')[k] in Pipeline(d))
    && (forall v: nat :: InPipeline(Pipeline(d), v) ==> InPipeline(Pipeline(d'), v) || v == d'.store.ver)
    && (d'.store == d.store || (d.writer.WPersist? && d.writer.item == Own(d'.store.ver, d'.store.cert)))
  }

  lemma PersistKeepsDisk(d: Disk, minted: seq<Cert>, alt: bool, torn: bool)
    requires DiskOk(d, minted) && d.writer.WPersist?
    ensures DiskOk(WriterMove(d, alt, torn), minted) && WriterEffect(d, WriterMove(d, alt, torn))
  {
    var d' := WriterMove(d, alt, torn);
    assert Pipeline(d)[0] == d.writer.item;
    assert Pipeline(d') == Pipeline(d)[1..];
    PipelineShrinks(Pipeline(d), d.store.ver, minted);
  }

  lemma WriterKeepsDisk(d: Disk, minted: seq<Cert>, root: bool, alt: bool, torn: bool)
    requires DiskOk(d, minted) && EnabledWriter(d, root, alt)
    ensures DiskOk(WriterMove(d, alt, torn), minted) && WriterEffect(d, WriterMove(d, alt, torn))
  {
    if d.writer.WPersist? {
      PersistKeepsDisk(d, minted, alt, torn);
    } else {
      assert Pipeline(WriterMove(d, alt, torn)) == Pipeline(d);
    }
  }

  lemma WriterStepKeeps(c: Config, s: State, a: Action)
    requires Inv(s) && Enabled(s, a) && a.WriterStep?
    ensures Inv(Next(c, s, a))
  {
    var d, d' := s.g.d, WriterMove(s.g.d, a.alt, a.torn);
    WriterKeepsDisk(d, s.g.minted, s.g.root, a.alt, a.torn);
    forall i | 0 <= i < |s.procs| && Rpc(s.procs[i]).Some? ensures HandOk(d', s.g.minted, Rpc(s.procs[i]).value) {
      HandSurvivesWriter(d, d', s.g.minted, Rpc(s.procs[i]).value);
    }
    var s' := s.(g := s.g.(d := d'));
    assert Next(c, s, a) == s';
    NewestSurvivesWriter(s, s');
  }

  lemma NewestSurvivesWriter(s: State, s': State)
    requires |s.g.minted| > 0 && NewestAccounted(s) && WriterEffect(s.g.d, s'.g.d)
    requires s'.procs == s.procs && s'.g.minted == s.g.minted
    requires s.g.d.store.ver < |s.g.minted| && s'.g.d.store.ver < |s.g.minted|
    ensures NewestAccounted(s')
  {
  }

  lemma HandSurvivesWriter(d: Disk, d': Disk, minted: seq<Cert>, pc: RenewPc)
    requires HandOk(d, minted, pc)
    requires forall k :: 0 <= k < |Pipeline(d')| ==> Pipeline(d')[k] in Pipeline(d)
    requires d'.store == d.store || (d.writer.WPersist? && d.writer.item == Own(d'.store.ver, d'.store.cert))
    ensures HandOk(d', minted, pc)
  {
    if d.writer.WPersist? {
      assert Pipeline(d)[0] == d.writer.item;
    }
  }

  lemma ForeignKeeps(c: Config, s: State)
    requires Inv(s) && Enabled(s, ForeignPut)
    ensures Inv(Next(c, s, ForeignPut))
  {
    var s' := Next(c, s, ForeignPut);
    assert Pipeline(s'.g.d) == Pipeline(s.g.d) + [Foreign];
    PipelineGrows(Pipeline(s.g.d), s.g.d.store.ver, s.g.minted, Foreign);
  }

  // ---------------------------------------------------------------- renew

  lemma PipelineGrows(p: seq<Item>, store: nat, minted: seq<Cert>, x: Item)
    requires PipelineOk(p, store, minted)
    requires x.Own? ==>
               && store < x.ver < |minted| && x.cert == minted[x.ver]
               && forall k :: 0 <= k < |p| && p[k].Own? ==> p[k].ver < x.ver
    ensures PipelineOk(p + [x], store, minted)
    ensures x.Own? ==> InPipeline(p + [x], x.ver)
    ensures forall v: nat :: InPipeline(p, v) ==> InPipeline(p + [x], v)
  {
    var p' := p + [x];
    assert p'[|p|] == x;
    forall v: nat | InPipeline(p, v) ensures InPipeline(p', v) {
      var k :| 0 <= k < |p| && p[k].Own? && p[k].ver == v;
      assert p'[k] == p[k];
    }
  }

  /** Putting the newest version in the queue. */
  lemma EnqueueKeepsDisk(d: Disk, minted: seq<Cert>, pc: RenewPc)
    requires DiskOk(d, minted) && HandOk(d, minted, pc) && pc.RHandOff?
    ensures DiskOk(DiskMove(d, pc, true), minted) && InPipeline(Pipeline(DiskMove(d, pc, true)), pc.ver)
  {
    PipelineGrows(Pipeline(d), d.store.ver, minted, Own(pc.ver, pc.cert));
    assert Pipeline(DiskMove(d, pc, true)) == Pipeline(d) + [Own(pc.ver, pc.cert)];
  }

  lemma PublishKeepsDisk(d: Disk, minted: seq<Cert>, cert: Cert)
    requires DiskOk(d, minted) && |minted| > 0
    ensures DiskOk(d, minted + [cert]) && HandOk(d, minted + [cert], RHandOff(|minted|, cert))
  {
  }

  /** No two processes are inside renew's locked part. */
  lemma SoleHolder(s: State, i: nat, j: nat)
    requires Orders.Inv(s) && i < |s.procs| && j < |s.procs|
    ensures Orders.HoldsLock(s.procs[i]) && Orders.HoldsLock(s.procs[j]) ==> i == j
  {
    assert Orders.ProcOk(s.g, i, s.procs[i]) && Orders.ProcOk(s.g, j, s.procs[j]);
  }

  lemma OnlyHolderHasHand(s: State, i: nat)
    requires Orders.Inv(s) && i < |s.procs| && Orders.HoldsLock(s.procs[i])
    ensures forall j :: 0 <= j < |s.procs| && j != i && Rpc(s.procs[j]).Some? ==> !Rpc(s.procs[j]).value.RHandOff?
  {
    forall j | 0 <= j < |s.procs| && j != i && Rpc(s.procs[j]).Some? ensures !Rpc(s.procs[j]).value.RHandOff? {
      SoleHolder(s, i, j);
    }
  }

  lemma PublishStepKeeps(c: Config, s: State, a: Action)
    requires Inv(s) && Orders.Inv(s) && Broadcast.Inv(s) && Enabled(s, a) && a.ProcStep? && Publishes(s.procs[a.i])
    ensures Inv(Next(c, s, a))
  {
    var s' := Next(c, s, a);
    PublishKeepsDisk(s.g.d, s.g.minted, Rpc(s.procs[a.i]).value.cert);
    OnlyHolderHasHand(s, a.i);
    assert Rpc(s'.procs[a.i]) == Some(RHandOff(|s.g.minted|, Rpc(s.procs[a.i]).value.cert));
  }

  lemma HandOffStepKeeps(c: Config, s: State, a: Action)
    requires Inv(s) && Orders.Inv(s) && Enabled(s, a) && a.ProcStep?
    requires Rpc(s.procs[a.i]).Some? && Rpc(s.procs[a.i]).value.RHandOff?
    ensures Inv(Next(c, s, a))
  {
    OnlyHolderHasHand(s, a.i);
    if a.alt {
      EnqueueKeepsDisk(s.g.d, s.g.minted, Rpc(s.procs[a.i]).value);
    } else {
      assert Pipeline(Next(c, s, a).g.d) == Pipeline(s.g.d);
    }
  }

  /** Every other process step leaves disk and history alone and creates no hand. */
  lemma OtherStepKeeps(c: Config, s: State, a: Action)
    requires Inv(s) && Enabled(s, a) && !a.WriterStep? && a != ForeignPut
    requires a.ProcStep? ==> !Publishes(s.procs[a.i]) && !(Rpc(s.procs[a.i]).Some? && Rpc(s.procs[a.i]).value.RHandOff?)
    ensures Inv(Next(c, s, a))
  {
    var s' := Next(c, s, a);
    assert s'.g.d == s.g.d && s'.g.minted == s.g.minted;
    forall i | 0 <= i < |s'.procs| && Rpc(s'.procs[i]).Some? && Rpc(s'.procs[i]).value.RHandOff?
      ensures i < |s.procs| && Rpc(s'.procs[i]) == Rpc(s.procs[i])
    {
      HandsAreOld(c, s, a, i);
    }
    if i :| 0 <= i < |s.procs| && InHand(s.procs[i], |s.g.minted| - 1) {
      assert Rpc(s'.procs[i]) == Rpc(s.procs[i]);
    }
  }

  lemma HandsAreOld(c: Config, s: State, a: Action, i: nat)
    requires Enabled(s, a) && i < |Next(c, s, a).procs|
    requires a.ProcStep? ==> !Publishes(s.procs[a.i])
    requires Rpc(Next(c, s, a).procs[i]).Some? && Rpc(Next(c, s, a).procs[i]).value.RHandOff?
    ensures i < |s.procs| && Rpc(Next(c, s, a).procs[i]) == Rpc(s.procs[i])
  {
  }

  lemma InvStep(c: Config, s: State, a: Action)
    requires Inv(s) && Orders.Inv(s) && Broadcast.Inv(s) && Enabled(s, a)
    ensures Inv(Next(c, s, a))
  {
    if a.WriterStep? {
      WriterStepKeeps(c, s, a);
    } else if a == ForeignPut {
      ForeignKeeps(c, s);
    } else if a.ProcStep? && Publishes(s.procs[a.i]) {
      PublishStepKeeps(c, s, a);
    } else if a.ProcStep? && Rpc(s.procs[a.i]).Some? && Rpc(s.procs[a.i]).value.RHandOff? {
      HandOffStepKeeps(c, s, a);
    } else {
      OtherStepKeeps(c, s, a);
    }
  }

  lemma ForwardStep(c: Config, s: State, a: Action)
    requires DiskOk(s.g.d, s.g.minted) && Enabled(s, a)
    ensures s.g.d.best <= Next(c, s, a).g.d.best && s.g.d.store.ver <= Next(c, s, a).g.d.store.ver
  {
    if a.WriterStep? {
      WriterKeepsDisk(s.g.d, s.g.minted, s.g.root, a.alt, a.torn);
    }
  }

  /** The writer's records only move forward. */
  lemma {:induction false} Forward(c: Config, s: State, acts: seq<Action>)
    requires Inv(s) && Orders.Inv(s) && Broadcast.Inv(s) && Executes(c, s, acts)
    ensures var t := After(c, s, acts);
            Inv(t) && Broadcast.Inv(t) && s.g.d.best <= t.g.d.best && s.g.d.store.ver <= t.g.d.store.ver
    decreases |acts|
  {
    if acts != [] {
      InvStep(c, s, acts[0]);
      Orders.InvStep(c, s, acts[0]);
      Broadcast.InvStep(c, s, acts[0]);
      ForwardStep(c, s, acts[0]);
      Forward(c, Next(c, s, acts[0]), acts[1..]);
    }
  }

  lemma InitOk(cert: Cert, now: int)
    ensures Inv(Init(cert, now)) && Orders.Inv(Init(cert, now)) && Broadcast.Inv(Init(cert, now))
  {
  }

  lemma InvReachable(c: Config, s: State)
    requires Reachable(c, s)
    ensures Inv(s) && Orders.Inv(s) && Broadcast.Inv(s)
  {
    var cert, now, acts :| Executes(c, Init(cert, now), acts) && After(c, Init(cert, now), acts) == s;
    Orders.InvReachable(c, s);
    InitOk(cert, now);
    Forward(c, Init(cert, now), acts);
  }

  // ---------------------------------------------------------------- theorems

  /** Disk never goes backwards. Whatever happens between two moments of a run, a readable
      file later holds a version no older than a readable file earlier; what it holds is
      exactly the certificate minted as that version; and it is never ahead of memory. */
  lemma DiskNeverGoesBackwards(c: Config, s: State, acts: seq<Action>)
    requires Reachable(c, s) && Executes(c, s, acts)
    ensures var t := After(c, s, acts);
            && (s.g.d.file.Some? && t.g.d.file.Some? ==> s.g.d.file.value.ver <= t.g.d.file.value.ver)
            && (t.g.d.file.Some? ==>
                  t.g.d.file.value.ver <= t.g.e.version && t.g.d.file.value.ver < |t.g.minted|
                  && t.g.d.file.value.cert == t.g.minted[t.g.d.file.value.ver])
  {
    InvReachable(c, s);
    Forward(c, s, acts);
  }

  /** The newest version is never silently lost: it is in the writer's map, and in the file
      unless the last write of the file failed; or it is queued, in the hand of a caller
      that still holds the renewal lock, or recorded as abandoned by a caller whose
      context was done. */
  lemma NewestVersionAccounted(c: Config, s: State)
    requires Reachable(c, s)
    ensures || (s.g.d.store == Stored(s.g.e.version, s.g.e.cert) && (s.g.d.clean ==> s.g.d.file == Some(s.g.d.store)))
            || InPipeline(Pipeline(s.g.d), s.g.e.version)
            || s.g.e.version in s.g.d.abandoned
            || exists i: nat :: i < |s.procs| && s.g.lock.holder == Some(i)
                 && Rpc(s.procs[i]) == Some(RHandOff(s.g.e.version, s.g.e.cert))
  {
    InvReachable(c, s);
    if i :| 0 <= i < |s.procs| && InHand(s.procs[i], |s.g.minted| - 1) {
      assert Orders.ProcOk(s.g, i, s.procs[i]);
    }
  }

  // ---------------------------------------------------------------- the writes of a run

  /** This step writes the file. */
  predicate Writes(s: State, a: Action) {
    a.WriterStep? && s.g.d.writer.WPersist?
  }

  /** A write that succeeds puts the writer's whole map on disk, with the item it had just taken. */
  lemma WriteReachesFile(c: Config, s: State, a: Action)
    requires Enabled(s, a) && Writes(s, a)
    ensures var d, d' := s.g.d, Next(c, s, a).g.d;
            && (d.writer.item.Own? ==> d'.store == Stored(d.writer.item.ver, d.writer.item.cert))
            && (d.writer.item.Foreign? ==> d'.store == d.store)
            && (a.alt ==> d'.file == Some(d'.store))
            && (!a.alt ==> d'.file == if a.torn then None else d.file)
  {
  }

  /** The last write of the run succeeded; `before` speaks for a run without one. */
  ghost function LastWriteOk(c: Config, s: State, acts: seq<Action>, before: bool): bool
    requires Executes(c, s, acts)
    decreases |acts|
  {
    if acts == [] then before
    else LastWriteOk(c, Next(c, s, acts[0]), acts[1..], if Writes(s, acts[0]) then acts[0].alt else before)
  }

  /** The history flag says exactly that. */
  lemma {:induction false} CleanMeansLastWriteOk(c: Config, s: State, acts: seq<Action>)
    requires Executes(c, s, acts)
    ensures After(c, s, acts).g.d.clean == LastWriteOk(c, s, acts, s.g.d.clean)
    decreases |acts|
  {
    if acts != [] {
      CleanStep(c, s, acts[0]);
      CleanMeansLastWriteOk(c, Next(c, s, acts[0]), acts[1..]);
    }
  }

  lemma CleanStep(c: Config, s: State, a: Action)
    requires Enabled(s, a)
    ensures Next(c, s, a).g.d.clean == if Writes(s, a) then a.alt else s.g.d.clean
  {
  }

  ghost predicate NoWriteFails(c: Config, s: State, acts: seq<Action>)
    requires Executes(c, s, acts)
    decreases |acts|
  {
    acts == [] || ((Writes(s, acts[0]) ==> acts[0].alt) && NoWriteFails(c, Next(c, s, acts[0]), acts[1..]))
  }

  lemma {:induction false} NoFailureIsOk(c: Config, s: State, acts: seq<Action>)
    requires Executes(c, s, acts) && NoWriteFails(c, s, acts)
    ensures LastWriteOk(c, s, acts, true)
    decreases |acts|
  {
    if acts != [] {
      NoFailureIsOk(c, Next(c, s, acts[0]), acts[1..]);
    }
  }

  /** What a run leaves on disk. If the last write of the run succeeded, or there was none, the
      file holds exactly the writer's map; so in a run in which no write fails the file is
      always readable, and once the writer has left its drain loop it is at least as new as
      every version the queue had accepted before. */
  lemma RunReachesDisk(c: Config, cert: Cert, now: int, acts: seq<Action>, a: Action)
    requires Executes(c, Init(cert, now), acts)
    ensures var s := After(c, Init(cert, now), acts);
            && (LastWriteOk(c, Init(cert, now), acts, true) ==> s.g.d.file == Some(s.g.d.store))
            && (NoWriteFails(c, Init(cert, now), acts) && Enabled(s, a) && a.WriterStep?
                && s.g.d.writer != WGone && Next(c, s, a).g.d.writer == WGone ==>
                  var d := Next(c, s, a).g.d;
                  d.file.Some? && forall v :: v in s.g.d.accepted ==> v <= d.file.value.ver)
  {
    var s := After(c, Init(cert, now), acts);
    assert Reachable(c, s);
    InvReachable(c, s);
    CleanMeansLastWriteOk(c, Init(cert, now), acts);
    if NoWriteFails(c, Init(cert, now), acts) {
      NoFailureIsOk(c, Init(cert, now), acts);
      if Enabled(s, a) && a.WriterStep? {
        DrainedBeforeExit(c, s, a);
      }
    }
  }

  /** The writer takes the oldest item out of the queue. */
  lemma TakesNext(c: Config, s: State) returns (t: State)
    requires AllInv(s) && s.g.d.queue != [] && s.g.d.writer in {WSelect, WDrain}
    ensures WriterLeads(c, s, t) && AllInv(t) && t.g.d.writer.WPersist?
    ensures Pipeline(t.g.d) == Pipeline(s.g.d) && t.g.d.accepted == s.g.d.accepted && t.g.root == s.g.root
  {
    t := WriterGoes(c, s, WriterStep(s.g.d.writer == WDrain, false));
  }

  /** One turn of the writer with a working file system: the oldest item is saved. */
  lemma SavesNext(c: Config, s: State) returns (t: State)
    requires AllInv(s) && s.g.d.writer.WPersist?
    ensures WriterLeads(c, s, t) && AllInv(t)
    ensures Pipeline(t.g.d) == Pipeline(s.g.d)[1..] && t.g.d.file == Some(t.g.d.store)
    ensures t.g.d.writer in {WSelect, WDrain} && t.g.d.accepted == s.g.d.accepted && t.g.root == s.g.root
  {
    t := WriterGoes(c, s, WriterStep(true, false));
  }

  ghost predicate AllInv(s: State) {
    Inv(s) && Orders.Inv(s) && Broadcast.Inv(s)
  }

  lemma WriterGoes(c: Config, s: State, a: Action) returns (t: State)
    requires AllInv(s) && Enabled(s, a) && a.WriterStep?
    ensures t == Next(c, s, a) && AllInv(t) && WriterLeads(c, s, t)
  {
    t := Next(c, s, a);
    InvStep(c, s, a);
    Orders.InvStep(c, s, a);
    Broadcast.InvStep(c, s, a);
    assert [a][1..] == [];
    assert Executes(c, t, []) && After(c, t, []) == t;
    assert Executes(c, s, [a]) && After(c, s, [a]) == t && OnlyWriter([a]);
  }

  /** Steps of the writer alone. */
  predicate OnlyWriter(acts: seq<Action>) {
    forall k :: 0 <= k < |acts| ==> acts[k].WriterStep?
  }

  ghost predicate WriterLeads(c: Config, s: State, t: State) {
    exists acts :: Executes(c, s, acts) && After(c, s, acts) == t && OnlyWriter(acts)
  }

  lemma WriterStays(c: Config, s: State)
    ensures WriterLeads(c, s, s)
  {
    assert Executes(c, s, []) && After(c, s, []) == s && OnlyWriter([]);
  }

  lemma WriterLeadsOn(c: Config, s: State, t: State, u: State)
    requires WriterLeads(c, s, t) && WriterLeads(c, t, u)
    ensures WriterLeads(c, s, u)
  {
    var p :| Executes(c, s, p) && After(c, s, p) == t && OnlyWriter(p);
    var q :| Executes(c, t, q) && After(c, t, q) == u && OnlyWriter(q);
    Concat(c, s, p, q);
    assert OnlyWriter(p + q);
  }

  lemma {:induction false} SavesAll(c: Config, s: State) returns (t: State)
    requires AllInv(s) && s.g.d.writer != WGone && Pipeline(s.g.d) != []
    ensures WriterLeads(c, s, t) && AllInv(t) && Pipeline(t.g.d) == [] && t.g.d.file == Some(t.g.d.store)
    ensures t.g.d.accepted == s.g.d.accepted && t.g.root == s.g.root && t.g.d.writer in {WSelect, WDrain}
    decreases |Pipeline(s.g.d)|
  {
    if s.g.d.writer.WPersist? {
      t := SavesNext(c, s);
    } else {
      var u := TakesNext(c, s);
      t := SavesNext(c, u);
      WriterLeadsOn(c, s, u, t);
    }
    if Pipeline(t.g.d) != [] {
      var u := SavesAll(c, t);
      WriterLeadsOn(c, s, t, u);
      t := u;
    }
  }

  /** What is queued can be saved. In every reachable state whose writer has not left, if anything
      waits, the writer's own steps can lead to a state in which nothing does and a readable
      file is at least as new as every version ever accepted. */
  lemma QueueReachesDisk(c: Config, s: State) returns (t: State)
    requires Reachable(c, s) && s.g.d.writer != WGone && (s.g.d.queue != [] || s.g.d.writer.WPersist?)
    ensures WriterLeads(c, s, t) && t.g.d.queue == [] && !t.g.d.writer.WPersist?
    ensures t.g.d.file.Some? && forall v :: v in s.g.d.accepted ==> v <= t.g.d.file.value.ver
  {
    InvReachable(c, s);
    t := SavesAll(c, s);
  }

  /** When the writer leaves its drain loop, everything the queue had accepted has been
      saved: the writer's map is at least as new as every accepted version, and so is the
      file unless its last write failed. */
  lemma DrainedBeforeExit(c: Config, s: State, a: Action)
    requires Reachable(c, s) && Enabled(s, a) && a.WriterStep?
    ensures s.g.d.writer != WGone && Next(c, s, a).g.d.writer == WGone ==>
              var d := Next(c, s, a).g.d;
              forall v :: v in s.g.d.accepted ==>
                v <= d.store.ver && (d.clean ==> d.file.Some? && v <= d.file.value.ver)
  {
    InvReachable(c, s);
    if s.g.d.writer == WDrain && s.g.d.queue == [] {
      assert Pipeline(s.g.d) == [];
    }
  }
}
