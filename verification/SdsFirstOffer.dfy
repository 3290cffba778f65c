/** What a stream's handler offers first. */
module SdsFirstOffer {
  import opened SdsModel
  import opened SdsProof
  import opened SdsConvergence

  /** The handler waits for its pack's first renewal. */
  ghost predicate WaitsForFirst(s: State, n: Name) {
    n in s.packs && s.packs[n].h.HFirst? && s.packs[n].h.v == s.packs[n].version && s.packs[n].offered == []
  }

  /** A handler starts with an offer exactly if the certificate is valid then. */
  lemma StartsWithValid(c: Config, s: State, n: Name, now: int)
    requires ConfigOk(c) && Reachable(c, s) && Enabled(s, HandlerStarts(n, now))
    ensures var p := Next(c, s, HandlerStarts(n, now)).packs[n];
            && (p.h == HOffer(p.version, p.cert) <==> now < p.cert.validBefore)
            && (WaitsForFirst(Next(c, s, HandlerStarts(n, now)), n) <==> p.cert.validBefore <= now)
  {
    InvReachable(c, s);
    assert PackOk(n, s.packs[n]);
  }

  /** The pack is not renewed in this run. */
  predicate Unrenewed(acts: seq<Action>, n: Name) {
    acts == [] || (!(acts[0].Renewed? && acts[0].n == n) && Unrenewed(acts[1..], n))
  }

  /** Otherwise nothing but a renewal of that pack makes it offer one. */
  lemma {:induction false} NothingBeforeRenewal(c: Config, s: State, n: Name, acts: seq<Action>)
    requires ConfigOk(c) && Reachable(c, s) && WaitsForFirst(s, n) && Executes(c, s, acts) && Unrenewed(acts, n)
    ensures WaitsForFirst(After(c, s, acts), n)
    decreases |acts|
  {
    if acts != [] {
      InvReachable(c, s);
      FirstWaitStep(c, s, n, acts[0]);
      ReachableNext(c, s, acts[0]);
      NothingBeforeRenewal(c, Next(c, s, acts[0]), n, acts[1..]);
    }
  }

  lemma FirstWaitStep(c: Config, s: State, n: Name, a: Action)
    requires ConfigOk(c) && Inv(c, s) && WaitsForFirst(s, n) && Enabled(s, a) && !(a.Renewed? && a.n == n)
    ensures WaitsForFirst(Next(c, s, a), n)
  {
    assert PackOk(n, s.packs[n]);
    match a
    case Renewed(x, cert) => OtherPack(s, Next(c, s, a), n, x, RenewMove(s.packs[x], cert));
    case ClientHello => Started(c, s, n);
    case ServerReceives => ReceiveWaits(c, s, n);
    case ServerName => NameWaits(c, s, n);
    case ServerSpawns(i) => SpawnWaits(c, s, n, i);
    case ServerSends | ClientReceives | ClientDispatches | ClientSends => MessageWaits(c, s, n, a);
    case _ => HandlerWaits(c, s, n, a);
  }

  /** A step of another pack, or one that keeps the handler waiting. */
  lemma OtherPack(s: State, s': State, n: Name, x: Name, p: Pack)
    requires WaitsForFirst(s, n) && x in s.packs && s'.packs == s.packs[x := p]
    requires x != n || (p.h == s.packs[n].h && p.version == s.packs[n].version && p.offered == s.packs[n].offered)
    ensures WaitsForFirst(s', n)
  {
  }

  lemma HandlerWaits(c: Config, s: State, n: Name, a: Action)
    requires PacksOk(c, s.packs) && WaitsForFirst(s, n) && OfPack(a) && Enabled(s, a)
    ensures WaitsForFirst(Next(c, s, a), n)
  {
    PackStepShape(c, s, a);
    assert PackOk(n, s.packs[n]);
    OtherPack(s, Next(c, s, a), n, a.n, MovedPack(s.packs[a.n], a));
  }

  lemma MessageWaits(c: Config, s: State, n: Name, a: Action)
    requires Messages(c, s) && WaitsForFirst(s, n) && Enabled(s, a)
    requires a.ServerSends? || a.ClientReceives? || a.ClientDispatches? || a.ClientSends?
    ensures WaitsForFirst(Next(c, s, a), n)
  {
    match a
    case ServerSends =>
      var x := s.out.value.name;
      OtherPack(s, Next(c, s, a), n, x, s.packs[x].(turn := OnS2C));
    case ClientReceives =>
      assert RespAt(s.packs, s.s2c[0], OnS2C);
      var x := s.s2c[0].name;
      OtherPack(s, Next(c, s, a), n, x, s.packs[x].(turn := ClientRecv));
    case ClientDispatches =>
      var r := s.recv.r;
      OtherPack(s, Next(c, s, a), n, r.name, s.packs[r.name].(k := KPut(r), turn := ClientHandling));
    case ClientSends =>
      assert AckAt(s.packs, s.send.q, ClientSender);
      var x := s.send.q.names[0];
      OtherPack(s, Next(c, s, a), n, x, s.packs[x].(turn := OnC2S));
  }

  lemma ReceiveWaits(c: Config, s: State, n: Name)
    requires ConfigOk(c) && Inv(c, s) && WaitsForFirst(s, n) && Enabled(s, ServerReceives)
    ensures WaitsForFirst(Next(c, s, ServerReceives), n)
  {
    assert PackOk(n, s.packs[n]);
    Started(c, s, n);
    assert AckAt(s.packs, s.c2s[0], OnC2S);
    AckIsTurned(s);
    var x := s.c2s[0].names[0];
    OtherPack(s, Next(c, s, ServerReceives), n, x, s.packs[x].(turn := ServerRecv));
  }

  lemma NameWaits(c: Config, s: State, n: Name)
    requires Inv(c, s) && WaitsForFirst(s, n) && Enabled(s, ServerName)
    ensures WaitsForFirst(Next(c, s, ServerName), n)
  {
    if s.disp.todo != [] && Dispatched(s, s.disp.todo[0]) {
      AckMeetsHandler(c, s);
      var x := s.disp.todo[0];
      OtherPack(s, Next(c, s, ServerName), n, x, s.packs[x].(h := HWait(s.packs[x].h.v), turn := Server));
    } else {
      NewNameShape(c, s);
    }
  }

  lemma SpawnWaits(c: Config, s: State, n: Name, i: nat)
    requires Messages(c, s) && WaitsForFirst(s, n) && PackOk(n, s.packs[n]) && Enabled(s, ServerSpawns(i))
    ensures WaitsForFirst(Next(c, s, ServerSpawns(i)), n)
  {
    if s.disp.fresh_ != [] {
      var x := s.disp.fresh_[i];
      OtherPack(s, Next(c, s, ServerSpawns(i)), n, x, s.packs[x].(h := HStart, turn := Server));
    }
  }
}
