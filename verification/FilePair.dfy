/** The client's certificate and key files: a two-file replacement with a failure or
    a crash at any system call, and the change detection that drives it. */
module FilePair {
  import opened Base

  /** Certificate material as delivered; the daemon starts with empty material. */
  datatype Pair = Pair(fullchain: string, key: string)

  const EMPTY := Pair("", "")

  /** The two target files, and the contents of temporary files by id. */
  datatype Disk = Disk(cert: Option<string>, key: Option<string>, temps: map<nat, string>)

  predicate Matches(d: Disk, p: Pair) {
    d.cert == Some(p.fullchain) && d.key == Some(p.key)
  }

  /** How far the replacement of `before` by `p` has come. */
  datatype Stage = Neither | CertOnly | Both

  predicate At(d: Disk, before: Disk, p: Pair, stage: Stage) {
    match stage
    case Neither => d.cert == before.cert && d.key == before.key
    case CertOnly => d.cert == Some(p.fullchain) && d.key == before.key
    case Both => Matches(d, p)
  }

  /** How far a write that ends at `outcome` has come after some number of its calls: the
      certificate is replaced by the ninth call and the key by the tenth. */
  function StageAfter(outcome: Stage, calls: nat): Stage {
    if calls <= 8 then Neither
    else if calls == 9 && outcome == Both then CertOnly
    else outcome
  }

  /** Every disk state in a write's trace: wholly old or wholly new per file, certificate
      first, never the old certificate with the new key. */
  ghost predicate InOrder(trace: seq<Disk>, before: Disk, p: Pair, outcome: Stage) {
    forall i :: 0 <= i < |trace| ==> At(trace[i], before, p, StageAfter(outcome, i + 1))
  }

  /** The target files did not change in this stretch of the trace. */
  ghost predicate Steady(trace: seq<Disk>, from: nat, d: Disk) {
    from <= |trace| && forall i :: from <= i < |trace| ==> trace[i].cert == d.cert && trace[i].key == d.key
  }

  /** No call from `first` on, up to but not including `last`, reports an error. */
  ghost predicate NoneFails(fails: nat -> bool, first: nat, last: nat) {
    forall n: nat :: first <= n < last ==> !fails(n)
  }

  /** Some call of the stretch reports an error. */
  ghost predicate Faulty(fails: nat -> bool, first: nat, last: nat) {
    exists n: nat :: first <= n < last && fails(n)
  }

  /** At most one does. */
  ghost predicate SingleFault(fails: nat -> bool, first: nat, last: nat) {
    forall m: nat, n: nat :: first <= m < n < last ==> !(fails(m) && fails(n))
  }

  /** How far a write whose first call is call `first` gets: four calls prepare each temporary
      file, the ninth renames the certificate, the tenth the key. */
  ghost function Outcome(fails: nat -> bool, first: nat): Stage {
    if !NoneFails(fails, first, first + 9) then Neither
    else if fails(first + 9) then CertOnly
    else Both
  }

  /** The file system. `fails(n)` says whether the n-th call reports an error; `trace`
      records the disk after every call, so a crash leaves one of its elements. */
  class Files {
    const fails: nat -> bool
    var disk: Disk
    var calls: nat
    var nextTemp: nat
    var trace: seq<Disk>

    ghost predicate Valid()
      reads this
    {
      && |trace| == calls
      && (forall t :: t in disk.temps ==> t < nextTemp)
      && (forall i, t :: 0 <= i < |trace| && t in trace[i].temps ==> t < nextTemp)
    }

    /** A process starting on whatever the last one left on disk; `unused` is a source of
        temporary names. */
    constructor (disk: Disk, unused: nat, fails: nat -> bool)
      requires forall t :: t in disk.temps ==> t < unused
      ensures Valid() && this.disk == disk && this.fails == fails && trace == [] && calls == 0 && nextTemp == unused
    {
      this.disk, this.fails, calls, trace := disk, fails, 0, [];
      nextTemp := unused;
    }

    /** One call that leaves the disk as `d` when it succeeds. */
    method Call(d: Disk) returns (ok: bool)
      requires forall t :: t in d.temps ==> t < nextTemp
      requires Valid()
      modifies this`disk, this`calls, this`trace
      ensures Valid() && disk == (if ok then d else old(disk))
      ensures ok == !fails(old(calls)) && calls == old(calls) + 1
      ensures trace == old(trace) + [disk]
    {
      ok := !fails(calls);
      if ok {
        disk := d;
      }
      calls := calls + 1;
      trace := trace + [disk];
    }

    method Remove(t: nat)
      requires Valid()
      modifies this`disk, this`calls, this`trace
      ensures Valid() && disk.cert == old(disk.cert) && disk.key == old(disk.key)
      ensures disk.temps == (if fails(old(calls)) then old(disk.temps) else old(disk.temps) - {t})
      ensures trace == old(trace) + [disk]
      ensures t !in old(disk.temps) ==> disk == old(disk)
    {
      assert t !in disk.temps ==> disk.temps - {t} == disk.temps;
      var ok := Call(disk.(temps := disk.temps - {t}));
    }

    /** prepareTempFile: create, write, chmod, close; any failure removes the file. Only
        temporary files change. */
    method PrepareTempFile(data: string) returns (r: Option<nat>)
      requires Valid()
      modifies this
      ensures Valid() && disk.cert == old(disk.cert) && disk.key == old(disk.key) && old(nextTemp) <= nextTemp
      ensures r.Some? ==> r.value !in old(disk.temps) && disk.temps == old(disk.temps)[r.value := data]
      ensures r.Some? <==> NoneFails(fails, old(calls), old(calls) + 4)
      ensures r.Some? ==> calls == old(calls) + 4
      ensures old(calls) <= calls && (r.None? ==> Faulty(fails, old(calls), calls))
      ensures r.None? && SingleFault(fails, old(calls), calls) ==> disk.temps == old(disk.temps)
      ensures old(trace) <= trace && Steady(trace, |old(trace)|, old(disk))
    {
      var name := nextTemp;
      nextTemp := nextTemp + 1;
      var ok := Call(disk.(temps := disk.temps[name := ""]));
      if !ok {
        return None;
      }
      ok := FillTempFile(name, data);
      if !ok {
        assert disk.temps - {name} == old(disk.temps);
        Remove(name);
        return None;
      }
      return Some(name);
    }

    /** Its write, chmod and close. */
    method FillTempFile(name: nat, data: string) returns (ok: bool)
      requires Valid() && name < nextTemp
      modifies this`disk, this`calls, this`trace
      ensures Valid() && disk.cert == old(disk.cert) && disk.key == old(disk.key)
      ensures ok ==> disk.temps == old(disk.temps)[name := data]
      ensures disk.temps - {name} == old(disk.temps) - {name}
      ensures old(calls) <= calls && (!ok ==> Faulty(fails, old(calls), calls))
      ensures ok <==> NoneFails(fails, old(calls), old(calls) + 3)
      ensures ok ==> calls == old(calls) + 3
      ensures old(trace) <= trace && Steady(trace, |old(trace)|, old(disk))
    {
      ok := Call(disk.(temps := disk.temps[name := data]));
      if !ok {
        return;
      }
      ok := Call(disk);
      if !ok {
        return;
      }
      ok := Call(disk);
    }

    method Rename(t: nat, toKey: bool) returns (ok: bool)
      requires Valid() && t in disk.temps
      modifies this`disk, this`calls, this`trace
      ensures Valid() && trace == old(trace) + [disk]
      ensures ok == !fails(old(calls)) && calls == old(calls) + 1
      ensures !ok ==> disk == old(disk)
      ensures ok && toKey ==> disk == old(disk).(key := Some(old(disk).temps[t]), temps := old(disk).temps - {t})
      ensures ok && !toKey ==> disk == old(disk).(cert := Some(old(disk).temps[t]), temps := old(disk).temps - {t})
    {
      var temps := disk.temps - {t};
      if toKey {
        ok := Call(disk.(key := Some(disk.temps[t]), temps := temps));
      } else {
        ok := Call(disk.(cert := Some(disk.temps[t]), temps := temps));
      }
    }

    /** Both temporary files are prepared before either rename. */
    method PrepareBoth(p: Pair) returns (r: Option<(nat, nat)>)
      requires Valid()
      modifies this
      ensures Valid() && disk.cert == old(disk.cert) && disk.key == old(disk.key) && old(nextTemp) <= nextTemp
      ensures old(trace) <= trace && Steady(trace, |old(trace)|, old(disk))
      ensures r.Some? ==>
                var (c, k) := r.value;
                && c != k && c !in old(disk.temps) && k !in old(disk.temps)
                && disk.temps == old(disk.temps)[c := p.fullchain][k := p.key]
      ensures old(calls) <= calls && (r.None? ==> Faulty(fails, old(calls), calls))
      ensures r.None? && SingleFault(fails, old(calls), calls) ==> disk.temps == old(disk.temps)
      ensures r.Some? <==> NoneFails(fails, old(calls), old(calls) + 8)
      ensures r.Some? ==> calls == old(calls) + 8
    {
      var certTmp := PrepareTempFile(p.fullchain);
      if certTmp.None? {
        return None;
      }
      var keyTmp := PrepareTempFile(p.key);
      if keyTmp.None? {
        Remove(certTmp.value);
        return None;
      }
      return Some((certTmp.value, keyTmp.value));
    }

    /** The two renames, certificate first. */
    method RenameBoth(c: nat, k: nat, p: Pair) returns (stage: Stage)
      requires Valid() && c != k
      requires c in disk.temps && disk.temps[c] == p.fullchain && k in disk.temps && disk.temps[k] == p.key
      modifies this`disk, this`calls, this`trace
      ensures Valid() && At(disk, old(disk), p, stage)
      ensures disk.temps == (match stage
                             case Neither => old(disk.temps)
                             case CertOnly => old(disk.temps) - {c}
                             case Both => old(disk.temps) - {c} - {k})
      ensures old(calls) <= calls && (stage != Both ==> Faulty(fails, old(calls), calls))
      ensures stage == Neither <==> fails(old(calls))
      ensures stage == Both <==> NoneFails(fails, old(calls), old(calls) + 2)
      ensures stage == Neither ==> trace == old(trace) + [disk]
      ensures stage == CertOnly ==> trace == old(trace) + [disk, disk]
      ensures stage == Both ==>
                |trace| == |old(trace)| + 2 && old(trace) <= trace && trace[|old(trace)| + 1] == disk
                && At(trace[|old(trace)|], old(disk), p, CertOnly)
    {
      var renamed := Rename(c, false);
      if !renamed {
        return Neither;
      }
      renamed := Rename(k, true);
      if !renamed {
        return CertOnly;
      }
      return Both;
    }

    /** writeCertKeyPairAtomic. Whatever call fails, and wherever a crash strikes, the two
        files go through the stages old/old, new/old, new/new in this order; success
        means both are new. How far it gets is decided by which of its first ten calls
        fail; and no temporary file is left behind by a success, nor by a failure if only
        one call fails. */
    method WritePair(p: Pair) returns (ok: bool, stage: Stage)
      requires Valid()
      modifies this
      ensures Valid() && At(disk, old(disk), p, stage) && old(nextTemp) <= nextTemp
      ensures stage == Outcome(fails, old(calls))
      ensures ok <==> NoneFails(fails, old(calls), old(calls) + 10)
      ensures stage != Neither ==> calls == old(calls) + 12
      ensures stage == Both || SingleFault(fails, old(calls), calls) ==> disk.temps == old(disk.temps)
      ensures old(trace) <= trace && InOrder(trace[|old(trace)|..], old(disk), p, stage)
    {
      var temps := PrepareBoth(p);
      if temps.None? {
        return false, Neither;
      }
      var (c, k) := temps.value;
      stage := RenameBoth(c, k, p);
      assert disk.temps - {k} - {c} == old(disk.temps);
      RemoveBoth(k, c);
      ok := stage == Both;
    }

    /** The deferred removals, last registered first. */
    method RemoveBoth(t: nat, u: nat)
      requires Valid()
      modifies this`disk, this`calls, this`trace
      ensures Valid() && disk.cert == old(disk.cert) && disk.key == old(disk.key)
      ensures old(trace) <= trace && Steady(trace, |old(trace)|, old(disk)) && calls == old(calls) + 2
      ensures NoneFails(fails, old(calls), old(calls) + 2) ==> disk.temps == old(disk.temps) - {t} - {u}
      ensures old(disk.temps) - {t} - {u} == old(disk.temps) ==> disk.temps == old(disk.temps)
    {
      Remove(t);
      Remove(u);
    }

    /** writeCertAndDoCommand: the reload command runs exactly when the pair was saved and
        both files existed before. `pathsOk` covers the path lookup and the parent
        directories, `hasCommand` a reload command that is not blank. */
    method SaveAndReload(p: Pair, pathsOk: bool, hasCommand: bool) returns (stage: Stage, reloaded: bool)
      requires Valid()
      modifies this
      ensures Valid() && At(disk, old(disk), p, stage)
      ensures old(trace) <= trace && InOrder(trace[|old(trace)|..], old(disk), p, stage)
      ensures reloaded <==> stage == Both && old(disk).cert.Some? && old(disk).key.Some? && hasCommand
      ensures stage == if pathsOk then Outcome(fails, old(calls)) else Neither
    {
      var certExists, keyExists := disk.cert.Some?, disk.key.Some?;
      if !pathsOk {
        return Neither, false;
      }
      var ok;
      ok, stage := WritePair(p);
      reloaded := ok && certExists && keyExists && hasCommand;
    }
  }

  // ---------------------------------------------------------------- change detection

  /** The daemon's view of one certificate, and what is on disk. */
  datatype Client = Client(disk: Disk, data: Pair)

  /** loadSavedCert: the saved pair if both files exist and can be read, else nothing. */
  function Saved(d: Disk, readable: bool): Pair {
    if Loadable(d, readable) then Pair(d.cert.value, d.key.value) else EMPTY
  }

  function Restarted(d: Disk, readable: bool): Client {
    Client(d, Saved(d, readable))
  }

  /** One delivery handled by watchUpdate, given how far the write gets. */
  ghost predicate Delivered(c: Client, p: Pair, stage: Stage, c': Client) {
    if p == c.data then c' == c
    else c'.data == p && At(c'.disk, c.disk, p, stage)
  }

  /** The stored data is swapped before the handlers run. */
  method Deliver(files: Files, data: Pair, p: Pair, pathsOk: bool, hasCommand: bool)
    returns (data': Pair, stage: Stage, handled: bool)
    requires files.Valid()
    modifies files
    ensures files.Valid()
    ensures handled <==> p != data
    ensures Delivered(Client(old(files.disk), data), p, stage, Client(files.disk, data'))
    ensures handled ==> stage == if pathsOk then Outcome(files.fails, old(files.calls)) else Neither
    ensures !handled ==> files.disk == old(files.disk) && files.calls == old(files.calls)
    ensures pathsOk && NoneFails(files.fails, old(files.calls), old(files.calls) + 10) ==>
              (Matches(files.disk, p) <==> data != p || Matches(old(files.disk), p))
  {
    data', stage, handled := data, Neither, false;
    if data.fullchain != p.fullchain || data.key != p.key {
      data' := p;
      handled := true;
      var reloaded;
      stage, reloaded := files.SaveAndReload(p, pathsOk, hasCommand);
    }
  }

  /** A saved pair is there to be loaded. */
  predicate Loadable(d: Disk, readable: bool) {
    d.cert.Some? && d.key.Some? && readable
  }

  /** Crash recovery. From whatever a crash left on disk, a restart followed by one delivery
      of `p` whose write, if one is needed, succeeds leaves both files equal to `p`. The
      one exception is empty material delivered when no saved pair can be loaded. */
  lemma RecoversIffNotVacuous(d: Disk, readable: bool, p: Pair, c': Client)
    requires Delivered(Restarted(d, readable), p, Both, c')
    ensures c'.data == p
    ensures Matches(c'.disk, p) <==> (p != EMPTY || (readable && d.cert.Some? && d.key.Some?) || Matches(d, EMPTY))
  {
  }

  /** A write that fails is not repeated. New material is delivered twice. Since the stored
      value is swapped before the write, the second delivery makes no call at all, whatever
      the file system could do by then; so the files match the material afterwards exactly if
      the first write's calls let it get far enough. */
  method DeliverTwice(files: Files, data: Pair, p: Pair, pathsOk: bool, hasCommand: bool)
    returns (data': Pair, stage: Stage)
    requires files.Valid() && data != p
    modifies files
    ensures files.Valid() && data' == p
    ensures stage == (if pathsOk then Outcome(files.fails, old(files.calls)) else Neither)
    ensures At(files.disk, old(files.disk), p, stage)
    ensures Matches(files.disk, p) <==>
              || stage == Both
              || (stage == CertOnly && old(files.disk).key == Some(p.key))
              || Matches(old(files.disk), p)
  {
    var handled, unused;
    data', stage, handled := Deliver(files, data, p, pathsOk, hasCommand);
    data', unused, handled := Deliver(files, data', p, true, hasCommand);
  }

  /** A run on a fresh disk whose very first call fails and no other would: after both
      deliveries there is still no file. */
  method FailedWriteRun() returns (files: Files, data: Pair)
    ensures fresh(files) && files.Valid() && forall n: nat :: files.fails(n) <==> n == 0
    ensures data == Pair("chain", "key") && files.disk.cert.None? && files.disk.key.None?
  {
    var fails := (n: nat) => n == 0;
    files := new Files(Disk(None, None, map[]), 0, fails);
    var stage, handled;
    data, stage, handled := Deliver(files, EMPTY, Pair("chain", "key"), true, true);
    assert fails(0);
    data, stage, handled := Deliver(files, data, Pair("chain", "key"), true, true);
  }

  /** Empty material delivered on a fresh disk is never written, even by a file system that
      never fails. */
  method EmptyMaterialRun() returns (files: Files, data: Pair)
    ensures fresh(files) && files.Valid() && forall n: nat :: !files.fails(n)
    ensures data == EMPTY && files.disk.cert.None? && files.disk.key.None?
  {
    files := new Files(Disk(None, None, map[]), 0, (n: nat) => false);
    var stage, handled;
    data, stage, handled := Deliver(files, Saved(files.disk, true), EMPTY, true, true);
  }

  /** Crash at any step, then recover: a write of non-empty material is cut off after any
      number of calls (or not at all), the daemon restarts on what is left, and the same
      material is delivered once more. If no call of the second write fails, both files
      then hold it; in general they do exactly if no write was needed, or the calls that
      fail let the write get far enough. */
  method CrashThenDeliver(disk: Disk, unused: nat, p: Pair, fails: nat -> bool, crash: nat,
                          failsAfter: nat -> bool, readable: bool)
    returns (left: Disk, final: Disk, needed: bool, stage: Stage)
    requires forall t :: t in disk.temps ==> t < unused
    requires p != EMPTY
    ensures At(left, disk, p, StageAfter(Outcome(fails, 0), crash))
    ensures needed <==> !(readable && Matches(left, p))
    ensures needed ==> stage == Outcome(failsAfter, 0)
    ensures (forall n: nat :: !failsAfter(n)) ==> Matches(final, p)
    ensures Matches(final, p) <==>
              || !needed
              || Outcome(failsAfter, 0) == Both
              || (Outcome(failsAfter, 0) == CertOnly && left.key == Some(p.key))
              || Matches(left, p)
  {
    var files := new Files(disk, unused, fails);
    var ok;
    ok, stage := files.WritePair(p);
    if crash == 0 {
      left := disk;
    } else if crash <= |files.trace| {
      left := files.trace[crash - 1];
      assert files.trace[0..][crash - 1] == left;
    } else {
      left := files.disk;
    }
    var again := new Files(left, files.nextTemp, failsAfter);
    var data := Saved(left, readable);
    data, stage, needed := Deliver(again, data, p, true, true);
    final := again.disk;
  }

  // ---------------------------------------------------------------- a stream of deliveries

  /** What the handlers are called with. */
  function Changes(data: Pair, updates: seq<Pair>): seq<Pair>
    decreases |updates|
  {
    if updates == [] then []
    else if updates[0] == data then Changes(data, updates[1..])
    else [updates[0]] + Changes(updates[0], updates[1..])
  }

  /** watchUpdate's loop over the deliveries that arrive before Stop. */
  method WatchUpdate(data: Pair, updates: seq<Pair>) returns (data': Pair, calls: seq<Pair>)
    ensures calls == Changes(data, updates)
    ensures data' == if updates == [] then data else updates[|updates| - 1]
  {
    data', calls := data, [];
    for k := 0 to |updates|
      invariant data' == if k == 0 then data else updates[k - 1]
      invariant Changes(data, updates) == calls + Changes(data', updates[k..])
    {
      var newCert := updates[k];
      assert updates[k..][1..] == updates[k + 1..];
      if data'.fullchain != newCert.fullchain || data'.key != newCert.key {
        data' := newCert;
        calls := calls + [newCert];
      }
    }
  }

  /** The value stored before the k-th delivery. */
  function Before(data: Pair, updates: seq<Pair>, k: nat): Pair
    requires k < |updates|
  {
    if k == 0 then data else updates[k - 1]
  }

  /** `at` lists, in order, the positions of the deliveries that differ from the value stored
      before them, and the handlers are called with exactly those. */
  ghost predicate Lists(data: Pair, updates: seq<Pair>, at: seq<nat>) {
    Calls(Changes(data, updates), updates, at) && forall k: nat :: k < |updates| ==> Marks(data, updates, at, k)
  }

  /** The calls are the deliveries at these positions, in order. */
  ghost predicate Calls(calls: seq<Pair>, updates: seq<Pair>, at: seq<nat>) {
    && |at| == |calls|
    && (forall i :: 0 <= i < |at| ==> at[i] < |updates| && calls[i] == updates[at[i]])
    && (forall i, j :: 0 <= i < j < |at| ==> at[i] < at[j])
  }

  predicate Marks(data: Pair, updates: seq<Pair>, at: seq<nat>, k: nat)
    requires k < |updates|
  {
    k in at <==> updates[k] != Before(data, updates, k)
  }

  function Shift(s: seq<nat>): seq<nat> {
    seq(|s|, i requires 0 <= i < |s| => s[i] + 1)
  }

  lemma ShiftIn(s: seq<nat>, k: nat)
    ensures k in Shift(s) <==> k >= 1 && k - 1 in s
  {
    if k >= 1 && k - 1 in s {
      var i :| 0 <= i < |s| && s[i] == k - 1;
      assert Shift(s)[i] == k;
    }
  }

  /** The positions one delivery later, with the first one if it is a change. */
  function Later(data: Pair, p: Pair, at: seq<nat>): seq<nat> {
    if p == data then Shift(at) else [0] + Shift(at)
  }

  lemma LaterIn(data: Pair, p: Pair, at: seq<nat>, k: nat)
    ensures k in Later(data, p, at) <==> if k == 0 then p != data else k - 1 in at
  {
    ShiftIn(at, k);
  }

  lemma BeforeTail(data: Pair, updates: seq<Pair>, k: nat)
    requires 1 <= k < |updates|
    ensures Before(data, updates, k) == Before(updates[0], updates[1..], k - 1) && updates[k] == updates[1..][k - 1]
  {
  }

  lemma ListsLater(data: Pair, updates: seq<Pair>, at: seq<nat>)
    requires updates != [] && Lists(updates[0], updates[1..], at)
    ensures Lists(data, updates, Later(data, updates[0], at))
  {
    var later := Later(data, updates[0], at);
    CallsLater(data, updates, Changes(updates[0], updates[1..]), at);
    forall k: nat | k < |updates| ensures Marks(data, updates, later, k) {
      LaterIn(data, updates[0], at, k);
      if k > 0 {
        BeforeTail(data, updates, k);
        assert Marks(updates[0], updates[1..], at, k - 1);
      }
    }
  }

  lemma CallsLater(data: Pair, updates: seq<Pair>, calls: seq<Pair>, at: seq<nat>)
    requires updates != [] && Calls(calls, updates[1..], at)
    ensures Calls(if updates[0] == data then calls else [updates[0]] + calls, updates, Later(data, updates[0], at))
  {
    CallsShift(updates, calls, at);
    if updates[0] != data {
      CallsFirst(updates, calls, Shift(at));
    }
  }

  lemma CallsShift(updates: seq<Pair>, calls: seq<Pair>, at: seq<nat>)
    requires updates != [] && Calls(calls, updates[1..], at)
    ensures Calls(calls, updates, Shift(at))
  {
    forall i | 0 <= i < |at| ensures Shift(at)[i] < |updates| && calls[i] == updates[Shift(at)[i]] {
      assert calls[i] == updates[1..][at[i]];
    }
  }

  lemma CallsFirst(updates: seq<Pair>, calls: seq<Pair>, at: seq<nat>)
    requires updates != [] && Calls(calls, updates, at) && forall i :: 0 <= i < |at| ==> at[i] > 0
    ensures Calls([updates[0]] + calls, updates, [0] + at)
  {
    var at', calls' := [0] + at, [updates[0]] + calls;
    forall i | 0 <= i < |at'| ensures at'[i] < |updates| && calls'[i] == updates[at'[i]] {
      assert i > 0 ==> at'[i] == at[i - 1] && calls'[i] == calls[i - 1];
    }
    forall i, j | 0 <= i < j < |at'| ensures at'[i] < at'[j] {
      assert at'[j] == at[j - 1];
    }
  }

  /** Handlers run exactly once per change of content, in order of delivery: `at` lists the
      positions of the deliveries they were called with, and a delivery is listed
      exactly if it differs from the value stored before it. */
  lemma {:induction false} OncePerChange(data: Pair, updates: seq<Pair>) returns (at: seq<nat>)
    ensures |at| == |Changes(data, updates)|
    ensures forall i :: 0 <= i < |at| ==> at[i] < |updates| && Changes(data, updates)[i] == updates[at[i]]
    ensures forall i, j :: 0 <= i < j < |at| ==> at[i] < at[j]
    ensures forall k: nat :: k < |updates| ==> (k in at <==> updates[k] != Before(data, updates, k))
  {
    at := Positions(data, updates);
    forall k: nat | k < |updates| ensures k in at <==> updates[k] != Before(data, updates, k) {
      assert Marks(data, updates, at, k);
    }
  }

  lemma {:induction false} Positions(data: Pair, updates: seq<Pair>) returns (at: seq<nat>)
    ensures Lists(data, updates, at)
    decreases |updates|
  {
    if updates == [] {
      at := [];
    } else {
      at := Positions(updates[0], updates[1..]);
      ListsLater(data, updates, at);
      at := Later(data, updates[0], at);
    }
  }
}
