/** Concurrent renew callers: ACME calls exclude each other and happen only after
    the stored certificate has expired. */
module EntryOrders {
  import opened Base
  import opened EntryModel
  import opened EntrySystem

  /** Between taking and giving back `renewMu`. */
  predicate Holding(pc: RenewPc) {
    !pc.RStart? && !pc.RLock? && !pc.RExit?
  }

  predicate HoldsLock(p: Proc) {
    Rpc(p).Some? && Holding(Rpc(p).value)
  }

  ghost predicate OrdersOk(orders: seq<Order>, cert: Cert, now: int) {
    && (forall a, b :: 0 <= a < b < |orders| && orders[a].stored ==> orders[a].vb <= orders[b].start)
    && (forall a :: 0 <= a < |orders| && orders[a].stored ==> orders[a].vb <= now || orders[a].vb == cert.validBefore)
  }

  /** The last order is the caller's own and has not been stored. */
  predicate OpenOrder(orders: seq<Order>, vb: int) {
    orders != [] && !orders[|orders| - 1].stored && orders[|orders| - 1].vb == vb
  }

  ghost predicate RenewOk(cert: Cert, now: int, orders: seq<Order>, pc: RenewPc) {
    match pc
    case RDecide(cur) => cur == cert
    case ROrder => cert.validBefore <= now
    case RObtain(vb) => cert.validBefore <= now && OpenOrder(orders, vb)
    case RPublish(new_) => cert.validBefore <= now && OpenOrder(orders, new_.validBefore)
    case _ => true
  }

  ghost predicate ProcOk(g: Shared, i: nat, p: Proc) {
    && (HoldsLock(p) <==> g.lock.holder == Some(i))
    && (Rpc(p).Some? ==> RenewOk(g.e.cert, g.now, g.lock.orders, Rpc(p).value))
  }

  ghost predicate Inv(s: State) {
    && OrdersOk(s.g.lock.orders, s.g.e.cert, s.g.now)
    && (s.g.lock.holder.Some? ==> s.g.lock.holder.value < |s.procs|)
    && forall i :: 0 <= i < |s.procs| ==> ProcOk(s.g, i, s.procs[i])
  }

  /** The renew section of one caller, on values. */
  lemma RenewActs(c: Config, g: Shared, done: bool, i: nat, pc: RenewPc, a: Action)
    requires a.ProcStep? && EnabledRenew(g, done, pc, a.alt) && !pc.RExit?
    requires OrdersOk(g.lock.orders, g.e.cert, g.now) && RenewOk(g.e.cert, g.now, g.lock.orders, pc)
    requires Holding(pc) <==> g.lock.holder == Some(i)
    ensures var cert' := if pc.RPublish? then pc.cert else g.e.cert;
            var l' := LockMove(c, g.lock, g.now, i, pc);
            var pc' := RenewMove(c, g, done, pc, a);
            && OrdersOk(l'.orders, cert', g.now) && RenewOk(cert', g.now, l'.orders, pc')
            && (Holding(pc') <==> l'.holder == Some(i))
            && (l'.holder.Some? ==> l'.holder == g.lock.holder || l'.holder == Some(i))
  {
    OrdersMove(c, g, i, pc);
  }

  /** The history grows by an order made after expiry, or its last order is stored. */
  lemma OrdersMove(c: Config, g: Shared, i: nat, pc: RenewPc)
    requires OrdersOk(g.lock.orders, g.e.cert, g.now) && RenewOk(g.e.cert, g.now, g.lock.orders, pc)
    ensures OrdersOk(LockMove(c, g.lock, g.now, i, pc).orders, if pc.RPublish? then pc.cert else g.e.cert, g.now)
    ensures pc.ROrder? ==> OpenOrder(LockMove(c, g.lock, g.now, i, pc).orders, TruncateHour(g.now) + c.lifetime)
  {
  }

  /** What a process step means for the lock and the certificate. */
  lemma Effects(c: Config, g: Shared, i: nat, p: Proc, alt: bool)
    ensures var g' := SharedMove(c, g, i, p, alt);
            && g'.e.cert == (if Publishes(p) then Rpc(p).value.cert else g.e.cert)
            && g'.lock == (if Rpc(p).Some? then LockMove(c, g.lock, g.now, i, Rpc(p).value) else g.lock)
            && g'.now == g.now
  {
  }

  lemma RpcMove(c: Config, g: Shared, p: Proc, a: Action)
    requires a.ProcStep?
    ensures Rpc(p).Some? && !Rpc(p).value.RExit? ==>
              Rpc(ProcMove(c, g, p, a)) == Some(RenewMove(c, g, CtxDone(g, p), Rpc(p).value, a))
    ensures Rpc(p).None? || Rpc(p).value.RExit? ==> Rpc(ProcMove(c, g, p, a)) in {None, Some(RStart)}
  {
  }

  lemma ProcActs(c: Config, s: State, a: Action)
    requires Inv(s) && Enabled(s, a) && a.ProcStep?
    ensures var g' := Next(c, s, a).g;
            && OrdersOk(g'.lock.orders, g'.e.cert, g'.now)
            && ProcOk(g', a.i, ProcMove(c, s.g, s.procs[a.i], a))
            && (g'.lock.holder.Some? ==> g'.lock.holder == s.g.lock.holder || g'.lock.holder == Some(a.i))
  {
    var p := s.procs[a.i];
    assert ProcOk(s.g, a.i, p);
    Effects(c, s.g, a.i, p, a.alt);
    RpcMove(c, s.g, p, a);
    if Rpc(p).Some? && !Rpc(p).value.RExit? {
      RenewActs(c, s.g, CtxDone(s.g, p), a.i, Rpc(p).value, a);
    }
  }

  /** Somebody else's step leaves a caller's knowledge intact. */
  lemma Bystander(c: Config, g: Shared, i: nat, p: Proc, alt: bool, j: nat, q: Proc)
    requires i != j && ProcOk(g, i, p) && ProcOk(g, j, q) && EnabledProc(g, p, alt)
    ensures ProcOk(SharedMove(c, g, i, p, alt), j, q)
  {
  }

  lemma InvStep(c: Config, s: State, a: Action)
    requires Inv(s) && Enabled(s, a)
    ensures Inv(Next(c, s, a))
  {
    var s' := Next(c, s, a);
    if a.ProcStep? {
      ProcActs(c, s, a);
      forall k | 0 <= k < |s'.procs| ensures ProcOk(s'.g, k, s'.procs[k]) {
        if k < |s.procs| && k != a.i {
          Bystander(c, s.g, a.i, s.procs[a.i], a.alt, k, s.procs[k]);
        }
      }
    } else {
      forall k | 0 <= k < |s'.procs| ensures ProcOk(s'.g, k, s'.procs[k]) {
        if k < |s.procs| {
          OuterStable(c, s, a, k);
        }
      }
    }
  }

  lemma OuterStable(c: Config, s: State, a: Action, k: nat)
    requires Inv(s) && Enabled(s, a) && !a.ProcStep? && k < |s.procs|
    ensures ProcOk(Next(c, s, a).g, k, Next(c, s, a).procs[k])
  {
    assert ProcOk(s.g, k, s.procs[k]);
  }

  lemma {:induction false} InvAlong(c: Config, s: State, acts: seq<Action>)
    requires Inv(s) && Executes(c, s, acts)
    ensures Inv(After(c, s, acts))
    decreases |acts|
  {
    if acts != [] {
      InvStep(c, s, acts[0]);
      InvAlong(c, Next(c, s, acts[0]), acts[1..]);
    }
  }

  lemma InvReachable(c: Config, s: State)
    requires Reachable(c, s)
    ensures Inv(s)
  {
    var cert, now, acts :| Executes(c, Init(cert, now), acts) && After(c, Init(cert, now), acts) == s;
    InvAlong(c, Init(cert, now), acts);
  }

  /** Process `i` is inside an ACME call. */
  predicate Obtaining(s: State, i: nat) {
    i < |s.procs| && Rpc(s.procs[i]).Some? && Rpc(s.procs[i]).value.RObtain?
  }

  /** One order per expiry. Over every run, with any number of concurrent callers, at most
      one ACME call is in progress; while one is, the stored certificate has expired; and
      each call starts no earlier than the ValidBefore stored by any earlier call. */
  lemma OneOrderPerExpiry(c: Config, s: State)
    requires Reachable(c, s)
    ensures forall i: nat, j: nat :: Obtaining(s, i) && Obtaining(s, j) ==> i == j
    ensures forall i: nat :: Obtaining(s, i) ==> !IsValid(s.g.e.cert, s.g.now)
    ensures forall a, b :: 0 <= a < b < |s.g.lock.orders| && s.g.lock.orders[a].stored ==>
              s.g.lock.orders[a].vb <= s.g.lock.orders[b].start
  {
    InvReachable(c, s);
    forall i: nat | Obtaining(s, i) ensures s.g.lock.holder == Some(i) && !IsValid(s.g.e.cert, s.g.now) {
      assert ProcOk(s.g, i, s.procs[i]);
    }
  }
}
