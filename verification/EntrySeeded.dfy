/** An entry seeded with a certificate, from disk or freshly created, orders nothing
    from ACME before that certificate's ValidBefore. */
module EntrySeeded {
  import opened EntryModel
  import opened EntrySystem
  import Orders = EntryOrders

  /** Nothing has happened to the seed, or its time is over. */
  ghost predicate Untouched(s: State, cert: Cert) {
    (s.g.e.cert == cert && s.g.lock.orders == [] && NoneOrdered(s)) || cert.validBefore <= s.g.now
  }

  ghost predicate NoneOrdered(s: State) {
    forall i :: 0 <= i < |s.procs| ==> !Publishes(s.procs[i])
  }

  lemma UntouchedStep(c: Config, s: State, a: Action, cert: Cert)
    requires Orders.Inv(s) && Untouched(s, cert) && Enabled(s, a)
    ensures Untouched(Next(c, s, a), cert)
  {
    var s' := Next(c, s, a);
    if a.ProcStep? && s.g.now < cert.validBefore {
      var p := s.procs[a.i];
      assert Orders.ProcOk(s.g, a.i, p);
      Orders.Effects(c, s.g, a.i, p, a.alt);
      Orders.RpcMove(c, s.g, p, a);
      forall i | 0 <= i < |s'.procs| ensures !Publishes(s'.procs[i]) {
        if i == a.i {
          assert s'.procs[i] == ProcMove(c, s.g, p, a);
        } else if i < |s.procs| {
          assert s'.procs[i] == s.procs[i];
        }
      }
    }
  }

  lemma {:induction false} UntouchedAlong(c: Config, s: State, acts: seq<Action>, cert: Cert)
    requires Orders.Inv(s) && Untouched(s, cert) && Executes(c, s, acts)
    ensures Untouched(After(c, s, acts), cert)
    decreases |acts|
  {
    if acts != [] {
      UntouchedStep(c, s, acts[0], cert);
      Orders.InvStep(c, s, acts[0]);
      UntouchedAlong(c, Next(c, s, acts[0]), acts[1..], cert);
    }
  }

  /** Whatever renewers, streams and requests do, no ACME call starts and the certificate
      stays in place as long as the clock has not reached the seed's ValidBefore. */
  lemma SeededOrdersNothing(c: Config, cert: Cert, now: int, acts: seq<Action>)
    requires Executes(c, Init(cert, now), acts)
    ensures var s := After(c, Init(cert, now), acts);
            s.g.now < cert.validBefore ==> s.g.lock.orders == [] && s.g.e.cert == cert
  {
    UntouchedAlong(c, Init(cert, now), acts, cert);
  }
}
