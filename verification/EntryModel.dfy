/** One cache entry of the server: its state, its critical sections under
    `stateMu` as functions on values, and the entry object whose methods carry
    them out in place. */
module EntryModel {
  import opened Base

  /** Certificate material, the time until which the server treats it as valid, and
      the time it was obtained. Times are nanoseconds. */
  datatype Cert = Cert(fullChain: string, key: string, validBefore: int, renewAt: int)

  predicate IsValid(cert: Cert, now: int) {
    now < cert.validBefore
  }

  const HOUR := 3_600_000_000_000

  /** `time.Truncate(1 * time.Hour)`. */
  function TruncateHour(t: int): (r: int)
    ensures r <= t < r + HOUR && r % HOUR == 0
  {
    t - t % HOUR
  }

  /** Everything `stateMu` guards. Channels are numbered in order of creation:
      `chans` have been made, `updated` is the current one, `closed` the closed ones.
      `cancelRenew` names the renewer context that `release` would cancel. */
  datatype Entry = Entry(
    cert: Cert,
    version: nat,
    updated: nat,
    chans: nat,
    closed: set<nat>,
    cancelRenew: Option<nat>,
    subscribing: int)

  function NewEntry(cert: Cert): Entry {
    Entry(cert, 0, 0, 1, {}, None, 0)
  }

  /** The current channel is open and every earlier one is closed. */
  ghost predicate EntryOk(e: Entry) {
    && e.updated < e.chans && e.updated !in e.closed
    && (forall ch :: 0 <= ch < e.chans && ch != e.updated ==> ch in e.closed)
    && (forall ch :: ch in e.closed ==> ch < e.chans)
  }

  /** renew's broadcast section. */
  function Publish(e: Entry, cert: Cert): Entry {
    e.(cert := cert, version := e.version + 1,
       closed := e.closed + {e.updated}, updated := e.chans, chans := e.chans + 1)
  }

  /** subscribe's section; `ctx` is the context it would create. */
  function Subscribe(e: Entry, ctx: nat): Entry {
    if e.subscribing == 0
    then e.(cancelRenew := Some(ctx), subscribing := 1)
    else e.(subscribing := e.subscribing + 1)
  }

  /** release's section. */
  function Release(e: Entry): Entry {
    var n := if e.subscribing > 0 then e.subscribing - 1 else e.subscribing;
    if n == 0 then e.(subscribing := n, cancelRenew := None) else e.(subscribing := n)
  }

  /** The context release cancels after its section. */
  function ReleaseCancels(e: Entry): Option<nat> {
    if e.subscribing == 0 || e.subscribing == 1 then e.cancelRenew else None
  }

  /** The first section of WaitForUpdate: return at once, or park on a channel. */
  datatype WaitStart = Return(v: nat) | Park(ch: nat)

  function BeginWait(e: Entry, seen: nat): WaitStart {
    if e.version != seen then Return(e.version) else Park(e.updated)
  }

  /** The entry object. Each method is one critical section. */
  class CertEntry {
    const domains: seq<string>
    var cert: Cert
    var version: nat
    var updated: nat
    var chans: nat
    var closed: set<nat>
    var cancelRenew: Option<nat>
    var subscribing: int

    ghost function State(): Entry
      reads this
    {
      Entry(cert, version, updated, chans, closed, cancelRenew, subscribing)
    }

    ghost predicate Valid()
      reads this
    {
      EntryOk(State())
    }

    constructor (domains: seq<string>)
      ensures Valid() && this.domains == domains
      ensures State() == NewEntry(Cert("", "", 0, 0))
    {
      this.domains := domains;
      cert := Cert("", "", 0, 0);
      version, updated, chans := 0, 0, 1;
      closed, cancelRenew, subscribing := {}, None, 0;
    }

    /** The pair is read together. */
    method Snapshot() returns (c: Cert, v: nat)
      ensures c == cert && v == version
    {
      c, v := cert, version;
    }

    /** Seeding from the persisted store replaces the certificate and nothing else. */
    method Seed(c: Cert)
      requires Valid()
      modifies this`cert
      ensures Valid() && State() == old(State()).(cert := c)
    {
      cert := c;
    }

    /** The broadcast: the channel closed is the one current before, and was open. */
    method Broadcast(c: Cert)
      requires Valid()
      modifies this
      ensures Valid() && State() == Publish(old(State()), c)
      ensures old(updated) !in old(closed) && old(updated) in closed
    {
      cert := c;
      version := version + 1;
      closed := closed + {updated};
      updated := chans;
      chans := chans + 1;
    }

    method StartWait(seen: nat) returns (w: WaitStart)
      requires Valid()
      ensures w == BeginWait(State(), seen)
      ensures w.Return? ==> w.v == version != seen
      ensures w.Park? ==> seen == version && w.ch !in closed
    {
      if version != seen {
        w := Return(version);
      } else {
        w := Park(updated);
      }
    }

    /** `start` tells the caller to spawn the renewer with context `ctx`. */
    method Join(ctx: nat) returns (start: bool)
      requires Valid()
      modifies this`cancelRenew, this`subscribing
      ensures Valid() && State() == Subscribe(old(State()), ctx)
      ensures start <==> old(subscribing) == 0
    {
      start := false;
      if subscribing == 0 {
        cancelRenew := Some(ctx);
        start := true;
      }
      subscribing := subscribing + 1;
    }

    /** `cancel` is the context to cancel once the section is left. */
    method Leave() returns (cancel: Option<nat>)
      requires Valid()
      modifies this`cancelRenew, this`subscribing
      ensures Valid() && State() == Release(old(State()))
      ensures cancel == ReleaseCancels(old(State()))
    {
      cancel := None;
      if subscribing > 0 {
        subscribing := subscribing - 1;
      }
      if subscribing == 0 {
        cancel := cancelRenew;
        cancelRenew := None;
      }
    }
  }
}
