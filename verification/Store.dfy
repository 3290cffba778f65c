/** The persisted certificate store, the in-memory cache, and the restart that
    carries one into the other. */
module Store {
  import opened Domain
  import opened EntryModel

  /** The 64-bit hash is a parameter; only the absence of collisions among the bundles
      in use is ever assumed about it, and only where stated. */
  type Hash = string -> nat

  ghost function KeyOf(hash: Hash, domains: seq<string>): nat {
    hash(HashInput(domains))
  }

  /** AsKey. */
  method AsKey(hash: Hash, domains: seq<string>) returns (k: nat)
    ensures k == KeyOf(hash, domains)
  {
    var input := KeyInput(domains);
    k := hash(input);
  }

  /** No two bundles of `used` with different canonical sets share a key. */
  ghost predicate NoCollision(hash: Hash, used: set<seq<string>>) {
    forall a, b :: a in used && b in used && KeyOf(hash, a) == KeyOf(hash, b) ==> CanonSet(a) == CanonSet(b)
  }

  /** With no collisions, keys are canonical sets. */
  lemma KeyIsCanonSet(hash: Hash, used: set<seq<string>>, a: seq<string>, b: seq<string>)
    requires NoCollision(hash, used) && a in used && b in used
    ensures KeyOf(hash, a) == KeyOf(hash, b) <==> CanonSet(a) == CanonSet(b)
  {
    SameKeyIffSameSet(a, b);
  }

  datatype Record = Record(domains: seq<string>, cert: Cert)

  datatype File = Missing | Unreadable | Json(records: map<nat, Record>)

  datatype LoadResult = Loaded | NotExist | Broken

  /** Every record sits under the key of its own domains. */
  ghost predicate Keyed(hash: Hash, m: map<nat, Record>) {
    forall k :: k in m ==> k == KeyOf(hash, m[k].domains)
  }

  ghost function StillValid(m: map<nat, Record>, now: int): map<nat, Record> {
    map k | k in m && IsValid(m[k].cert, now) :: m[k]
  }

  /** Some record in `m` is valid and belongs under `k`. */
  ghost predicate Supplies(hash: Hash, m: map<nat, Record>, now: int, k: nat, r: Record) {
    (exists j :: j in m && m[j] == r) && IsValid(r.cert, now) && KeyOf(hash, r.domains) == k
  }

  class CertStore {
    const hash: Hash
    var entries: map<nat, Record>
    var file: File

    constructor (hash: Hash, file: File)
      ensures this.hash == hash && this.file == file && entries == map[]
    {
      this.hash, this.file, entries := hash, file, map[];
    }

    /** Load discards expired records and files the others under freshly computed keys,
        whatever key the file had them under. If two records share a key either may
        win. A file whose records already sit under their own keys is taken over
        exactly. */
    method Load(now: int) returns (r: LoadResult)
      requires Keyed(hash, entries)
      modifies this`entries
      ensures Keyed(hash, entries)
      ensures r == match file case Missing => NotExist case Unreadable => Broken case Json(_) => Loaded
      ensures !r.Loaded? ==> entries == old(entries)
      ensures r.Loaded? ==>
                && (forall k :: k in entries ==>
                      || Supplies(hash, file.records, now, k, entries[k])
                      || (k in old(entries) && entries[k] == old(entries)[k]))
                && (forall j :: j in file.records && IsValid(file.records[j].cert, now) ==>
                      var k := KeyOf(hash, file.records[j].domains);
                      k in entries && Supplies(hash, file.records, now, k, entries[k]))
                && (forall k :: k in old(entries) ==> k in entries)
      ensures r.Loaded? && Keyed(hash, file.records) ==> entries == old(entries) + StillValid(file.records, now)
    {
      match file {
        case Missing => return NotExist;
        case Unreadable => return Broken;
        case Json(_) =>
      }
      var raw := file.records;
      var todo := raw.Keys;
      while todo != {}
        invariant todo <= raw.Keys && Keyed(hash, entries)
        invariant forall k :: k in entries ==>
                    Supplies(hash, raw, now, k, entries[k]) || (k in old(entries) && entries[k] == old(entries)[k])
        invariant forall j :: j in raw && j !in todo && IsValid(raw[j].cert, now) ==>
                    var k := KeyOf(hash, raw[j].domains);
                    k in entries && Supplies(hash, raw, now, k, entries[k])
        invariant forall k :: k in old(entries) ==> k in entries
        invariant Keyed(hash, raw) ==>
                    forall k :: k in entries && Supplies(hash, raw, now, k, entries[k]) ==>
                      k in raw && entries[k] == raw[k]
        decreases todo
      {
        var j :| j in todo;
        todo := todo - {j};
        var rec := raw[j];
        if !IsValid(rec.cert, now) {
          continue;
        }
        var k := AsKey(hash, rec.domains);
        assert Supplies(hash, raw, now, k, rec);
        entries := entries[k := rec];
      }
      if Keyed(hash, raw) {
        TakenOver(hash, raw, now, old(entries), entries);
      }
      return Loaded;
    }

    /** save writes the whole map or reports an error; an error may leave the file torn. */
    method Save(writes: bool, torn: bool) returns (ok: bool)
      modifies this`file
      ensures ok == writes
      ensures ok ==> file == Json(entries)
      ensures !ok ==> file == (if torn then Unreadable else old(file))
    {
      if writes {
        file := Json(entries);
      } else if torn {
        file := Unreadable;
      }
      ok := writes;
    }

    method SaveEntry(rec: Record, writes: bool, torn: bool) returns (ok: bool)
      requires Keyed(hash, entries)
      modifies this
      ensures Keyed(hash, entries)
      ensures entries == old(entries)[KeyOf(hash, rec.domains) := rec]
      ensures ok == writes && (ok ==> file == Json(entries))
      ensures !ok ==> file == (if torn then Unreadable else old(file))
    {
      var k := AsKey(hash, rec.domains);
      entries := entries[k := rec];
      ok := Save(writes, torn);
    }
  }

  /** Properly keyed records end up where they were. */
  lemma TakenOver(hash: Hash, raw: map<nat, Record>, now: int, before: map<nat, Record>, after: map<nat, Record>)
    requires Keyed(hash, raw)
    requires forall k :: k in after ==> Supplies(hash, raw, now, k, after[k]) || (k in before && after[k] == before[k])
    requires forall j :: j in raw && IsValid(raw[j].cert, now) ==>
               var k := KeyOf(hash, raw[j].domains);
               k in after && Supplies(hash, raw, now, k, after[k])
    requires forall k :: k in before ==> k in after
    requires forall k :: k in after && Supplies(hash, raw, now, k, after[k]) ==> k in raw && after[k] == raw[k]
    ensures after == before + StillValid(raw, now)
  {
    var want := before + StillValid(raw, now);
    forall k | k in after ensures k in want && after[k] == want[k] {
      if k in StillValid(raw, now) {
        assert KeyOf(hash, raw[k].domains) == k;
      }
    }
    forall k | k in want ensures k in after {
      if k in StillValid(raw, now) {
        assert KeyOf(hash, raw[k].domains) == k;
      }
    }
  }

  /** A fresh store that loads what another one saved holds exactly its still-valid records. */
  method SaveThenLoad(store: CertStore, now: int) returns (fresh_: CertStore)
    requires Keyed(store.hash, store.entries)
    modifies store`file
    ensures fresh(fresh_) && fresh_.hash == store.hash
    ensures fresh_.entries == StillValid(store.entries, now)
  {
    var ok := store.Save(true, false);
    fresh_ := new CertStore(store.hash, store.file);
    var r := fresh_.Load(now);
  }

  // ---------------------------------------------------------------- the cache

  /** The in-memory cache: one entry object per key. */
  class CertCache {
    const hash: Hash
    var entries: map<nat, CertEntry>

    ghost predicate Valid()
      reads this, entries.Values
    {
      && (forall k :: k in entries ==> entries[k].Valid() && k == KeyOf(hash, entries[k].domains))
    }

    constructor (hash: Hash)
      ensures Valid() && this.hash == hash && entries == map[]
    {
      this.hash, entries := hash, map[];
    }

    /** The entry of the bundle's key, made on first use and kept ever after. */
    method Get(domains: seq<string>) returns (e: CertEntry)
      requires Valid()
      modifies this`entries
      ensures Valid()
      ensures KeyOf(hash, domains) in entries && e == entries[KeyOf(hash, domains)]
      ensures KeyOf(hash, domains) in old(entries) ==> entries == old(entries)
      ensures KeyOf(hash, domains) !in old(entries) ==>
                && fresh(e) && entries == old(entries)[KeyOf(hash, domains) := e]
                && e.domains == domains && e.State() == NewEntry(Cert("", "", 0, 0))
    {
      var k := AsKey(hash, domains);
      if k in entries {
        return entries[k];
      }
      e := new CertEntry(domains);
      entries := entries[k := e];
    }

    /** One turn of loadCertStore's loop: look the entry up and put the certificate in. */
    method SeedOne(rec: Record)
      requires Valid() && KeyOf(hash, rec.domains) !in entries
      modifies this`entries
      ensures Valid() && KeyOf(hash, rec.domains) in entries
      ensures var k := KeyOf(hash, rec.domains);
              && entries == old(entries)[k := entries[k]] && fresh(entries[k])
              && entries[k].domains == rec.domains && entries[k].State() == NewEntry(rec.cert)
    {
      var e := Get(rec.domains);
      e.Seed(rec.cert);
    }

    /** The object under `k` holds the record's domains and certificate and nothing else. */
    ghost predicate Holds(k: nat, rec: Record)
      reads this, entries.Values
    {
      k in entries && entries[k].domains == rec.domains && entries[k].State() == NewEntry(rec.cert)
    }

    /** loadCertStore's seeding loop, on a cache that has just been made. */
    method Seed(records: map<nat, Record>)
      requires Valid() && entries == map[] && Keyed(hash, records)
      modifies this`entries
      ensures Valid() && entries.Keys == records.Keys
      ensures forall k :: k in records ==> fresh(entries[k]) && Holds(k, records[k])
    {
      var todo := records.Keys;
      while todo != {}
        invariant todo <= records.Keys && Valid() && entries.Keys == records.Keys - todo
        invariant forall k :: k in entries ==> fresh(entries[k]) && Holds(k, records[k])
        decreases todo
      {
        var k :| k in todo;
        todo := todo - {k};
        SeedOne(records[k]);
      }
    }
  }

  /** The cache agrees with a map keyed by canonical sets: two lookups meet in the same
      entry exactly when the bundles have the same set of names. */
  method LookupTwice(cache: CertCache, a: seq<string>, b: seq<string>) returns (x: CertEntry, y: CertEntry)
    requires cache.Valid() && NoCollision(cache.hash, {a, b})
    modifies cache`entries
    ensures cache.Valid()
    ensures x == y <==> CanonSet(a) == CanonSet(b)
  {
    x := cache.Get(a);
    y := cache.Get(b);
    KeyIsCanonSet(cache.hash, {a, b}, a, b);
  }

  /** Cheap restart. After Load and seeding, looking up any bundle with the canonical set of
      a persisted, still valid record returns an entry at version 0 holding that
      record's certificate, whatever keys the file had its records under. If several valid
      records of the file share that key, it is one of theirs. (That such an entry orders
      nothing before its ValidBefore is EntrySeeded.SeededOrdersNothing.) */
  method Restart(hash: Hash, file: File, now: int, rec: Record, domains: seq<string>) returns (e: CertEntry)
    requires file.Json? && IsValid(rec.cert, now) && rec in file.records.Values
    requires CanonSet(domains) == CanonSet(rec.domains)
    ensures exists r :: Rival(hash, file.records, now, rec, r)
              && e.State() == NewEntry(r.cert) && e.domains == r.domains
    ensures (forall r :: Rival(hash, file.records, now, rec, r) ==> r.cert == rec.cert) ==>
              e.State() == NewEntry(rec.cert)
  {
    var store := new CertStore(hash, file);
    var r := store.Load(now);
    var cache := new CertCache(hash);
    cache.Seed(store.entries);
    SameKeyIffSameSet(domains, rec.domains);
    var j :| j in file.records && file.records[j] == rec;
    ghost var r' := store.entries[KeyOf(hash, rec.domains)];
    assert Rival(hash, file.records, now, rec, r');
    e := cache.Get(domains);
  }

  /** `r` is a valid record of the file with the key of `rec`. */
  ghost predicate Rival(hash: Hash, m: map<nat, Record>, now: int, rec: Record, r: Record) {
    Supplies(hash, m, now, KeyOf(hash, rec.domains), r)
  }
}
