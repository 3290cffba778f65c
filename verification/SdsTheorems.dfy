/** The SDS stream's promises, stated for every state a run can reach. */
module SdsTheorems {
  import opened EntryModel
  import opened SdsModel
  import opened SdsProof
  import Files = FilePair

  // ---------------------------------------------------------------- one message per pack

  /** The places a message about a pack can be, on either side or on the wire. */
  datatype Where =
    | OnRequestWire(i: nat) | AtServerReceiver | AtServerSender | OnResponseWire(i: nat)
    | AtClientReceiver | AtClientHandler | AtClientSender

  predicate Carries(s: State, n: Name, w: Where) {
    match w
    case OnRequestWire(i) => i < |s.c2s| && n in s.c2s[i].names
    case AtServerReceiver => s.disp.DNames? && n in s.disp.todo
    case AtServerSender => s.out.Some? && s.out.value.name == n
    case OnResponseWire(i) => i < |s.s2c| && s.s2c[i].name == n
    case AtClientReceiver => s.recv.RHas? && s.recv.r.name == n
    case AtClientHandler => n in s.packs && !s.packs[n].k.KIdle?
    case AtClientSender => s.send.SHas? && n in s.send.q.names
  }

  /** A message's place is where its pack's turn says. */
  function TurnAt(w: Where): Turn {
    match w
    case OnRequestWire(_) => OnC2S
    case AtServerReceiver => ServerRecv
    case AtServerSender => ServerSender
    case OnResponseWire(_) => OnS2C
    case AtClientReceiver => ClientRecv
    case AtClientHandler => ClientHandling
    case AtClientSender => ClientSender
  }

  lemma PlaceMatchesTurn(c: Config, s: State, n: Name, w: Where)
    requires Messages(c, s) && n in s.packs && s.packs[n].turn != NotYet && ClientOk(n, s.packs[n])
    ensures Carries(s, n, w) ==> s.packs[n].turn == TurnAt(w)
  {
    Started(c, s, n);
    match w
    case OnRequestWire(i) => if i < |s.c2s| { assert AckAt(s.packs, s.c2s[i], OnC2S); }
    case AtServerReceiver => ReceiverMatchesTurn(s.packs, s.disp, n);
    case OnResponseWire(i) => if i < |s.s2c| { assert RespAt(s.packs, s.s2c[i], OnS2C); }
    case _ =>
  }

  lemma ReceiverMatchesTurn(m: map<Name, Pack>, disp: Dispatcher, n: Name)
    requires DispOk(m, disp) && n in m && m[n].turn != NotYet
    ensures disp.DNames? && n in disp.todo ==> m[n].turn == ServerRecv
  {
    if disp.DNames? && n in disp.todo {
      TodoFresh(m, disp.fresh_, disp.todo, n);
    }
  }

  lemma TodoFresh(m: map<Name, Pack>, fresh_: seq<Name>, todo: seq<Name>, n: Name)
    requires n in todo
    ensures Fresh(m, fresh_ + todo) ==> n in m && m[n].turn == NotYet
  {
    var k :| 0 <= k < |todo| && todo[k] == n;
    assert (fresh_ + todo)[|fresh_| + k] == n;
  }

  /** Before its handler exists a pack is named only by the first request. */
  lemma OnlyHelloBefore(c: Config, s: State, n: Name, w: Where)
    requires Messages(c, s) && n in s.packs && s.packs[n].turn == NotYet && ClientOk(n, s.packs[n])
    ensures Carries(s, n, w) ==>
              if s.domainSets.None? then w == OnRequestWire(0) else w == AtServerReceiver
  {
    match w
    case OnRequestWire(i) =>
      if i < |s.c2s| && s.send != SHello && s.domainSets.Some? { assert AckAt(s.packs, s.c2s[i], OnC2S); }
    case OnResponseWire(i) => if i < |s.s2c| { assert RespAt(s.packs, s.s2c[i], OnS2C); }
    case _ =>
  }

  lemma OncePerWire(c: Config, s: State, n: Name, i: nat, j: nat)
    requires Messages(c, s) && n in s.packs && s.packs[n].turn != NotYet
    ensures Carries(s, n, OnRequestWire(i)) && Carries(s, n, OnRequestWire(j)) ==> i == j
    ensures Carries(s, n, OnResponseWire(i)) && Carries(s, n, OnResponseWire(j)) ==> i == j
  {
    Started(c, s, n);
    if i < |s.c2s| && j < |s.c2s| {
      assert AckAt(s.packs, s.c2s[i], OnC2S) && AckAt(s.packs, s.c2s[j], OnC2S);
    }
  }

  lemma AtMostOne(c: Config, s: State, n: Name, v: Where, w: Where)
    requires Inv(c, s) && n in s.packs
    ensures Carries(s, n, v) && Carries(s, n, w) ==> v == w
  {
    assert PackOk(n, s.packs[n]);
    if s.packs[n].turn == NotYet {
      OnlyHelloBefore(c, s, n, v);
      OnlyHelloBefore(c, s, n, w);
    } else {
      PlaceMatchesTurn(c, s, n, v);
      PlaceMatchesTurn(c, s, n, w);
      if (v.OnRequestWire? && w.OnRequestWire?) || (v.OnResponseWire? && w.OnResponseWire?) {
        OncePerWire(c, s, n, v.i, w.i);
      }
    }
  }

  /** One message per pack. In every reachable state of a stream there is at most one message
      about a pack, counting requests, responses and acks on the wire and in every
      goroutine's hands; in particular never a response and an ack in flight together. */
  lemma OneMessagePerPack(c: Config, s: State, n: Name, v: Where, w: Where)
    requires ConfigOk(c) && Reachable(c, s) && n in c.names
    ensures Carries(s, n, v) && Carries(s, n, w) ==> v == w
  {
    InvReachable(c, s);
    NamesArePacks(c, s, n);
    AtMostOne(c, s, n, v, w);
  }

  lemma NamesArePacks(c: Config, s: State, n: Name)
    requires s.packs.Keys == NameSet(c) && n in c.names
    ensures n in s.packs
  {
    assert n in NameSet(c);
  }

  /** The receive loop holds an ack for a pack that has a handler. */
  predicate HandingAck(s: State) {
    s.disp.DNames? && s.disp.todo != [] && Dispatched(s, s.disp.todo[0])
  }

  /** Acks fit and nothing waits in vain. Whenever the server's receive loop is about to hand
      an ack to a handler, that handler is waiting for it (not for a renewal), and the ack
      carries the version last offered. */
  lemma AcksFit(c: Config, s: State)
    requires ConfigOk(c) && Reachable(c, s) && HandingAck(s)
    ensures var p := s.packs[s.disp.todo[0]];
            && p.h.HAwait? && s.disp.req.version == Wire(p.h.cert)
            && p.offered != [] && p.offered[|p.offered| - 1] == p.h.v
            && p.h.v < |p.minted| && p.minted[p.h.v] == p.h.cert
  {
    InvReachable(c, s);
    AckMeetsHandler(c, s);
    var n := s.disp.todo[0];
    assert PackOk(n, s.packs[n]);
    AwaitsLastOffer(s.packs[n]);
  }

  lemma AwaitsLastOffer(p: Pack)
    requires ServerOk(p)
    ensures p.h.HAwait? ==>
              && p.offered != [] && p.offered[|p.offered| - 1] == p.h.v
              && p.h.v < |p.minted| && p.minted[p.h.v] == p.h.cert
  {
  }

  /** No handler ever sees an ack of a version it did not offer, the client never sees a
      certificate it did not ask for, and of the server's error branches only the
      allow-list's rejection can be taken. */
  lemma ErrorBranchesUnreachable(c: Config, s: State)
    requires ConfigOk(c) && Reachable(c, s)
    ensures forall n :: n in s.packs ==> !s.packs[n].h.HRejected?
    ensures s.disp.DError? ==> s.disp.e == NotPermitted
    ensures !s.recv.RError?
  {
    InvReachable(c, s);
    forall n | n in s.packs ensures !s.packs[n].h.HRejected? {
      assert PackOk(n, s.packs[n]);
    }
  }

  // ---------------------------------------------------------------- clients that break the protocol

  /** An ack is accepted exactly if it carries the version offered, from whatever client: any
      state, reachable or not. */
  lemma AckAcceptedIffOffered(c: Config, s: State)
    requires HandingAck(s) && Enabled(s, ServerName)
    ensures var n := s.disp.todo[0]; var h, h' := s.packs[n].h, Next(c, s, ServerName).packs[n].h;
            && (h' == HWait(h.v) <==> s.disp.req.version == Wire(h.cert))
            && (h' == HRejected <==> s.disp.req.version != Wire(h.cert))
  {
  }

  /** A first request without metadata ends the stream, and so does a name the metadata does not
      describe; a stream that has its metadata reads on. */
  lemma BadRequestsRefused(c: Config, s: State)
    ensures Enabled(s, ServerReceives) ==>
              (Next(c, s, ServerReceives).disp == DError(NoMetadata) <==> s.domainSets.None? && s.c2s[0].meta.None?)
    ensures Enabled(s, ServerName) && s.disp.todo != [] && !Dispatched(s, s.disp.todo[0]) ==>
              (Next(c, s, ServerName).disp == DError(UnknownPack)
               <==> s.domainSets.None? || s.disp.todo[0] !in s.domainSets.value)
  {
  }

  /** Versions on the wire follow the time a certificate was obtained, to the second. */
  lemma WireFollowsTime(a: Cert, b: Cert)
    ensures a.renewAt <= b.renewAt ==> Wire(a) <= Wire(b)
    ensures a.renewAt + 1_000_000_000 <= b.renewAt ==> Wire(a) < Wire(b)
  {
  }

  // ---------------------------------------------------------------- end to end

  /** What the watcher has taken, as certificate material. */
  function Taken(p: Pack): seq<Got>
    requires p.taken <= |p.delivered|
  {
    p.delivered[..p.taken]
  }

  function Material(gs: seq<Got>): seq<Files.Pair> {
    seq(|gs|, i requires 0 <= i < |gs| => Files.Pair(gs[i].cert.fullChain, gs[i].cert.key))
  }

  lemma TakenInOrder(p: Pack)
    requires ServerOk(p) && DeliveryOk(p)
    ensures p.taken <= |p.delivered| <= p.taken + 1 && |p.delivered| <= |p.offered|
    ensures forall i :: 0 <= i < p.taken ==>
              && Taken(p)[i].idx == p.offered[i] && Taken(p)[i].idx < |p.minted|
              && Taken(p)[i].cert == p.minted[Taken(p)[i].idx]
    ensures forall i, j :: 0 <= i < j < p.taken ==> Taken(p)[i].idx < Taken(p)[j].idx
  {
    assert forall i :: 0 <= i < p.taken ==> Taken(p)[i] == p.delivered[i];
  }

  /** End-to-end order. On one stream, what the watcher takes is exactly the server's offers,
      in order and none skipped, with at most one more waiting in the update channel; each
      is the certificate of one server version, the versions strictly increase; and the
      handlers run exactly at the deliveries whose content differs from the one stored
      before. */
  lemma EndToEndOrder(c: Config, s: State, n: Name, data: Files.Pair) returns (at: seq<nat>)
    requires ConfigOk(c) && Reachable(c, s) && n in s.packs
    ensures var p := s.packs[n];
            && p.taken <= |p.delivered| <= p.taken + 1 && |p.delivered| <= |p.offered|
            && (forall i :: 0 <= i < p.taken ==>
                  && Taken(p)[i].idx == p.offered[i] && Taken(p)[i].idx < |p.minted|
                  && Taken(p)[i].cert == p.minted[Taken(p)[i].idx])
            && (forall i, j :: 0 <= i < j < p.taken ==> Taken(p)[i].idx < Taken(p)[j].idx)
    ensures var us := Material(Taken(s.packs[n]));
            && |at| == |Files.Changes(data, us)|
            && (forall i :: 0 <= i < |at| ==> at[i] < |us| && Files.Changes(data, us)[i] == us[at[i]])
            && (forall i, j :: 0 <= i < j < |at| ==> at[i] < at[j])
            && (forall k: nat :: k < |us| ==> (k in at <==> us[k] != Files.Before(data, us, k)))
  {
    InvReachable(c, s);
    assert PackOk(n, s.packs[n]);
    TakenInOrder(s.packs[n]);
    at := Files.OncePerChange(data, Material(Taken(s.packs[n])));
  }
}
