/** What `renew` and the requests behind it achieve: how a call may end, what the reply to a
    request is worth, and that an expired certificate is replaced. */
module EntryRenew {
  import opened Base
  import opened EntryModel
  import opened EntrySystem
  import opened EntryRuns
  import Orders = EntryOrders
  import Broadcast = EntryBroadcast
  import Lifecycle = EntryLifecycle

  // ---------------------------------------------------------------- how a call ends

  /** The outcome is backed by the history: a certificate that was current and valid at the
      check, or a version beyond the first one. */
  ghost predicate Backed(minted: seq<Cert>, out: Outcome) {
    match out
    case Found(ver, cert, at) => ver < |minted| && minted[ver] == cert && IsValid(cert, at)
    case Made(ver, cert) => 0 < ver < |minted| && minted[ver] == cert
    case Failed => true
  }

  ghost predicate PcOk(minted: seq<Cert>, pc: RenewPc) {
    match pc
    case RHandOff(ver, cert) => Backed(minted, Made(ver, cert))
    case RUnlock(out) => Backed(minted, out)
    case RExit(out) => Backed(minted, out)
    case _ => true
  }

  /** A request replies only after a call of `renew` that did not fail, or without one. */
  ghost predicate HowOk(minted: seq<Cert>, how: Option<Outcome>) {
    how.Some? ==> !how.value.Failed? && Backed(minted, how.value)
  }

  ghost predicate ProcOk(minted: seq<Cert>, p: Proc) {
    match p
    case Renewer(_, pc) => PcOk(minted, pc)
    case ReqRenew(_, pc) => PcOk(minted, pc)
    case ReqReply(_, how) => HowOk(minted, how)
    case Replied(cert, ver, how) =>
      && ver < |minted| && minted[ver] == cert && HowOk(minted, how)
      && (how.Some? ==> how.value.ver <= ver)
    case _ => true
  }

  ghost predicate Inv(s: State) {
    forall i :: 0 <= i < |s.procs| ==> ProcOk(s.g.minted, s.procs[i])
  }

  lemma Grows(minted: seq<Cert>, cert: Cert, p: Proc)
    requires ProcOk(minted, p)
    ensures ProcOk(minted + [cert], p)
  {
  }

  lemma PcActs(c: Config, g: Shared, done: bool, pc: RenewPc, a: Action)
    requires a.ProcStep? && PcOk(g.minted, pc) && Broadcast.BroadcastOk(g.e, g.minted)
    requires Orders.RenewOk(g.e.cert, g.now, g.lock.orders, pc)
    ensures PcOk(if pc.RPublish? then g.minted + [pc.cert] else g.minted, RenewMove(c, g, done, pc, a))
  {
  }

  lemma Acts(c: Config, g: Shared, i: nat, p: Proc, a: Action)
    requires a.ProcStep? && ProcOk(g.minted, p) && Broadcast.BroadcastOk(g.e, g.minted) && Orders.ProcOk(g, i, p)
    ensures ProcOk(MintedMove(g.minted, p), ProcMove(c, g, p, a))
    ensures forall k :: 0 <= k < |Spawned(p)| ==> ProcOk(MintedMove(g.minted, p), Spawned(p)[k])
  {
    match p
    case Renewer(_, pc) => PcActs(c, g, CtxDone(g, p), pc, a);
    case ReqRenew(done, pc) => PcActs(c, g, done, pc, a);
    case Sds(_, _, _) =>
    case Https(_) =>
    case _ =>
  }

  lemma InvStep(c: Config, s: State, a: Action)
    requires Inv(s) && Orders.Inv(s) && Broadcast.Inv(s) && Enabled(s, a)
    ensures Inv(Next(c, s, a))
  {
    var s' := Next(c, s, a);
    if a.ProcStep? {
      var p := s.procs[a.i];
      assert Orders.ProcOk(s.g, a.i, p);
      Acts(c, s.g, a.i, p, a);
      forall k | 0 <= k < |s'.procs| ensures ProcOk(s'.g.minted, s'.procs[k]) {
        if k < |s.procs| && k != a.i && Publishes(p) {
          Grows(s.g.minted, Rpc(p).value.cert, s.procs[k]);
        }
      }
    } else {
      OuterStep(c, s, a);
    }
  }

  lemma OuterStep(c: Config, s: State, a: Action)
    requires Inv(s) && Enabled(s, a) && !a.ProcStep?
    ensures Inv(Next(c, s, a))
  {
    var s' := Next(c, s, a);
    assert s'.g.minted == s.g.minted;
    forall k | 0 <= k < |s'.procs| ensures ProcOk(s.g.minted, s'.procs[k]) {
      assert k < |s.procs| ==> ProcOk(s.g.minted, s.procs[k]) && ProcOk(s.g.minted, MarkDone(s.procs[k]));
    }
  }

  lemma {:induction false} InvAlong(c: Config, s: State, acts: seq<Action>)
    requires Inv(s) && Orders.Inv(s) && Broadcast.Inv(s) && Executes(c, s, acts)
    ensures Inv(After(c, s, acts))
    decreases |acts|
  {
    if acts != [] {
      InvStep(c, s, acts[0]);
      Orders.InvStep(c, s, acts[0]);
      Broadcast.InvStep(c, s, acts[0]);
      InvAlong(c, Next(c, s, acts[0]), acts[1..]);
    }
  }

  lemma InvReachable(c: Config, s: State)
    requires Reachable(c, s)
    ensures Inv(s)
  {
    var cert, now, acts :| Executes(c, Init(cert, now), acts) && After(c, Init(cert, now), acts) == s;
    InvAlong(c, Init(cert, now), acts);
  }

  /** No idle success. In every reachable state a call that leaves `renew` without an error has
      found the entry's certificate valid at its check, or has published a version itself. */
  lemma RenewVouches(c: Config, s: State, i: nat)
    requires Reachable(c, s) && i < |s.procs|
    requires Rpc(s.procs[i]).Some? && Rpc(s.procs[i]).value.RExit?
    ensures match Rpc(s.procs[i]).value.out
            case Found(ver, cert, at) => ver < |s.g.minted| && s.g.minted[ver] == cert && at < cert.validBefore
            case Made(ver, cert) => 0 < ver < |s.g.minted| && s.g.minted[ver] == cert
            case Failed => true
  {
    InvReachable(c, s);
    assert ProcOk(s.g.minted, s.procs[i]);
  }

  /** What a reply is worth. The certificate a request is answered with is the one of a single
      version; if the request called `renew`, that call did not fail, and the version is no
      older than the one the call vouched for. */
  lemma ReplyVouched(c: Config, s: State, i: nat)
    requires Reachable(c, s) && i < |s.procs| && s.procs[i].Replied?
    ensures var Replied(cert, ver, how) := s.procs[i];
            && ver < |s.g.minted| && s.g.minted[ver] == cert
            && (how.Some? ==> !how.value.Failed? && Backed(s.g.minted, how.value) && how.value.ver <= ver)
  {
    InvReachable(c, s);
    assert ProcOk(s.g.minted, s.procs[i]);
  }

  /** A request calls `renew` exactly when no stream and no HTTPS server is subscribed. */
  lemma RequestRenewsIffUnsubscribed(c: Config, s: State, i: nat, a: Action)
    requires Reachable(c, s) && i < |s.procs| && s.procs[i].ReqCheck? && a.ProcStep? && a.i == i
    ensures Enabled(s, a)
    ensures var p := Next(c, s, a).procs[i];
            && (p == ReqRenew(s.procs[i].done, RStart) <==> Sum(s.procs, Lifecycle.Subscription) == 0)
            && (p == ReqReply(s.procs[i].done, None) <==> Sum(s.procs, Lifecycle.Subscription) > 0)
  {
    Lifecycle.RenewerLifecycle(c, s);
  }

  // ---------------------------------------------------------------- runs of one process

  /** The process with its `renew` at another program point. */
  function WithPc(p: Proc, pc: RenewPc): Proc {
    match p
    case Renewer(ctx, _) => Renewer(ctx, pc)
    case ReqRenew(done, _) => ReqRenew(done, pc)
    case _ => p
  }

  /** Process `i` is at program point `pc` of `renew`. */
  predicate At(s: State, i: nat, pc: RenewPc) {
    i < |s.procs| && Rpc(s.procs[i]) == Some(pc)
  }

  /** One step inside `renew`. */
  lemma Inside(c: Config, s: State, i: nat, t: State, pc: RenewPc, alt: bool, fc: string, key: string)
    returns (t': State)
    requires Leads(c, s, i, t) && At(t, i, pc) && !pc.RExit?
    requires EnabledRenew(t.g, CtxDone(t.g, t.procs[i]), pc, alt)
    ensures Leads(c, s, i, t') && t'.g == SharedMove(c, t.g, i, t.procs[i], alt)
    ensures var pc' := RenewMove(c, t.g, CtxDone(t.g, t.procs[i]), pc, ProcStep(i, alt, fc, key));
            t'.procs == t.procs[i := WithPc(t.procs[i], pc')] && At(t', i, pc')
  {
    var a := ProcStep(i, alt, fc, key);
    Go(c, s, i, t, a);
    t' := Next(c, t, a);
    assert Spawned(t.procs[i]) == [];
  }

  /** Taking the lock and looking at the certificate. */
  lemma Decides(c: Config, s: State, i: nat) returns (t: State)
    requires At(s, i, RLock) && s.g.lock.holder.None?
    ensures Leads(c, s, i, t) && t.g == s.g.(lock := s.g.lock.(holder := Some(i)))
    ensures t.procs == s.procs[i := WithPc(s.procs[i], RDecide(s.g.e.cert))] && At(t, i, RDecide(s.g.e.cert))
  {
    Stay(c, s, i);
    t := Inside(c, s, i, s, RLock, true, "", "");
    t := Inside(c, s, i, t, RSnap, true, "", "");
  }

  lemma Unlocks(c: Config, s: State, i: nat, t: State, out: Outcome) returns (t': State)
    requires Leads(c, s, i, t) && At(t, i, RUnlock(out))
    ensures Leads(c, s, i, t') && t'.g == t.g.(lock := t.g.lock.(holder := None))
    ensures t'.procs == t.procs[i := WithPc(t.procs[i], RExit(out))]
  {
    t' := Inside(c, s, i, t, RUnlock(out), true, "", "");
  }

  /** A caller that gets the lock while the certificate is valid changes nothing. */
  lemma RenewFinds(c: Config, s: State, i: nat) returns (t: State)
    requires At(s, i, RLock) && s.g.lock.holder.None? && IsValid(s.g.e.cert, s.g.now)
    ensures Leads(c, s, i, t) && t.g == s.g
    ensures t.procs == s.procs[i := WithPc(s.procs[i], RExit(Found(s.g.e.version, s.g.e.cert, s.g.now)))]
  {
    t := Decides(c, s, i);
    t := Inside(c, s, i, t, RDecide(s.g.e.cert), true, "", "");
    t := Unlocks(c, s, i, t, Found(s.g.e.version, s.g.e.cert, s.g.now));
  }

  /** A caller that finds it expired orders a new one for the next full lifetime. */
  lemma RenewOrders(c: Config, s: State, i: nat) returns (t: State)
    requires At(s, i, RLock) && s.g.lock.holder.None? && !IsValid(s.g.e.cert, s.g.now)
    ensures var vb := TruncateHour(s.g.now) + c.lifetime;
            && Leads(c, s, i, t) && At(t, i, RObtain(vb))
            && t.g == s.g.(lock := Lock(Some(i), s.g.lock.orders + [Order(s.g.now, vb, false)]))
            && t.procs == s.procs[i := WithPc(s.procs[i], RObtain(vb))]
  {
    t := Decides(c, s, i);
    t := Inside(c, s, i, t, RDecide(s.g.e.cert), true, "", "");
    t := Inside(c, s, i, t, ROrder, true, "", "");
  }

  /** If ACME fails, only the order remains, and the call returns the error. */
  lemma RenewFails(c: Config, s: State, i: nat) returns (t: State)
    requires At(s, i, RLock) && s.g.lock.holder.None? && !IsValid(s.g.e.cert, s.g.now)
    ensures var vb := TruncateHour(s.g.now) + c.lifetime;
            Leads(c, s, i, t) && t.g == s.g.(lock := Lock(None, s.g.lock.orders + [Order(s.g.now, vb, false)]))
    ensures t.procs == s.procs[i := WithPc(s.procs[i], RExit(Failed))]
  {
    t := RenewOrders(c, s, i);
    t := Inside(c, s, i, t, RObtain(TruncateHour(s.g.now) + c.lifetime), false, "", "");
    t := Unlocks(c, s, i, t, Failed);
  }

  /** ACME returns `fc` and `key` after `d`: the certificate about to be published. */
  lemma RenewObtains(c: Config, s: State, i: nat, d: nat, fc: string, key: string) returns (t: State)
    requires At(s, i, RLock) && s.g.lock.holder.None? && !IsValid(s.g.e.cert, s.g.now)
    ensures var vb := TruncateHour(s.g.now) + c.lifetime; var cert := Cert(fc, key, vb, s.g.now + d);
            && Leads(c, s, i, t) && At(t, i, RPublish(cert))
            && t.g == s.g.(now := s.g.now + d, lock := Lock(Some(i), s.g.lock.orders + [Order(s.g.now, vb, false)]))
            && t.procs == s.procs[i := WithPc(s.procs[i], RPublish(cert))]
  {
    t := RenewOrders(c, s, i);
    Go(c, s, i, t, Tick(d));
    t := Next(c, t, Tick(d));
    t := Inside(c, s, i, t, RObtain(TruncateHour(s.g.now) + c.lifetime), true, fc, key);
  }

  /** Renewal works. From any state in which a caller gets the lock and finds the certificate
      expired, whatever ACME returns and whenever, that caller alone can go on to publish
      exactly that certificate as the next version, valid for the lifetime from the hour of
      the order, hand it to the writer's queue and leave. */
  lemma RenewMakes(c: Config, s: State, i: nat, d: nat, fc: string, key: string) returns (t: State)
    requires At(s, i, RLock) && s.g.lock.holder.None? && !IsValid(s.g.e.cert, s.g.now) && |s.g.d.queue| < QUEUE_CAP
    ensures var vb := TruncateHour(s.g.now) + c.lifetime; var cert := Cert(fc, key, vb, s.g.now + d);
            var v := s.g.e.version + 1;
            && Leads(c, s, i, t)
            && t.g.e == Publish(s.g.e, cert) && t.g.e.version == v && t.g.e.cert == cert
            && t.g.lock == Lock(None, s.g.lock.orders + [Order(s.g.now, vb, true)])
            && t.g.d == s.g.d.(queue := s.g.d.queue + [Own(v, cert)], accepted := s.g.d.accepted + {v})
            && t.procs == s.procs[i := WithPc(s.procs[i], RExit(Made(v, cert)))]
  {
    t := RenewObtains(c, s, i, d, fc, key);
    var cert := Cert(fc, key, TruncateHour(s.g.now) + c.lifetime, s.g.now + d);
    t := Inside(c, s, i, t, RPublish(cert), true, "", "");
    t := Inside(c, s, i, t, RHandOff(s.g.e.version + 1, cert), true, "", "");
    t := Unlocks(c, s, i, t, Made(s.g.e.version + 1, cert));
  }

  // ---------------------------------------------------------------- the renewer comes back

  /** The end of a round leads to the timer, whatever its outcome, and the timer to a new round. */
  lemma RoundAgain(c: Config, s: State, i: nat, t: State, ctx: nat) returns (t': State)
    requires Leads(c, s, i, t) && i < |t.procs| && !CtxDone(t.g, t.procs[i])
    requires t.procs[i] == RenewerTimer(ctx) || (t.procs[i].Renewer? && t.procs[i].ctx == ctx && t.procs[i].pc.RExit?)
    ensures Leads(c, s, i, t') && t'.g == t.g
    ensures t'.procs == t.procs[i := if t.procs[i].RenewerTimer? then Renewer(ctx, RStart) else RenewerTimer(ctx)]
  {
    Go(c, s, i, t, ProcStep(i, true, "", ""));
    t' := Next(c, t, ProcStep(i, true, "", ""));
  }

  /** A live renewer outside the lock gets to it: from its timer, from the end of a round
      whatever its outcome, or from its start. */
  lemma RenewerComesBack(c: Config, s: State, i: nat) returns (t: State)
    requires Lifecycle.LiveRenewer(s, i) && !Orders.HoldsLock(s.procs[i])
    ensures Leads(c, s, i, t) && t.g == s.g && t.procs == s.procs[i := Renewer(s.procs[i].ctx, RLock)]
    decreases if s.procs[i].RenewerTimer? then 1 else if s.procs[i].pc.RExit? then 2 else 0
  {
    Stay(c, s, i);
    if s.procs[i].RenewerTimer? || s.procs[i].pc.RExit? {
      var u := RoundAgain(c, s, i, s, s.procs[i].ctx);
      t := RenewerComesBack(c, u, i);
      LeadsOn(c, s, i, u, t);
    } else if s.procs[i].pc.RStart? {
      t := Inside(c, s, i, s, RStart, true, "", "");
    } else {
      t := s;
    }
  }

  /** An expired certificate is replaced. In every reachable state with a live renewer, a free
      lock and room in the queue, the renewer's own steps can lead to the next version, whose
      certificate is whatever ACME returns. */
  lemma ExpiredIsReplaced(c: Config, s: State, i: nat, d: nat, fc: string, key: string) returns (t: State)
    requires Reachable(c, s) && Lifecycle.LiveRenewer(s, i) && s.g.lock.holder.None?
    requires !IsValid(s.g.e.cert, s.g.now) && |s.g.d.queue| < QUEUE_CAP
    ensures Leads(c, s, i, t) && t.g.e.version == s.g.e.version + 1
    ensures t.g.e.cert == Cert(fc, key, TruncateHour(s.g.now) + c.lifetime, s.g.now + d)
  {
    Orders.InvReachable(c, s);
    assert Orders.ProcOk(s.g, i, s.procs[i]);
    var u := RenewerComesBack(c, s, i);
    t := RenewMakes(c, u, i, d, fc, key);
    LeadsOn(c, s, i, u, t);
  }

  // ---------------------------------------------------------------- a reply without a certificate

  /** While the first certificate of an entry is still being obtained for a subscriber, a request
      is answered with empty material: the renewer is not waited for. */
  lemma UnissuedReply(c: Config, now: int) returns (s: State)
    requires now >= 0
    ensures Reachable(c, s) && |s.procs| == 2 && s.procs[1] == Replied(Cert("", "", 0, 0), 0, None)
    ensures !IsValid(s.g.e.cert, s.g.now)
  {
    var none := Cert("", "", 0, 0);
    var s0 := Init(none, now);
    var acts := [Arrive(NewSds)];
    assert Executes(c, s0, []) && After(c, s0, []) == s0;
    Extend(c, s0, [], Arrive(NewSds));
    assert [] + [Arrive(NewSds)] == acts;
    s := Next(c, s0, Arrive(NewSds));
    acts, s := Then(c, s0, acts, s, ProcStep(0, true, "", ""));
    acts, s := Then(c, s0, acts, s, Arrive(NewRequest));
    acts, s := Then(c, s0, acts, s, ProcStep(1, true, "", ""));
    acts, s := Then(c, s0, acts, s, ProcStep(1, true, "", ""));
  }
}
