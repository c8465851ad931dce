/**
 The revisioned store every control-plane loop races on.

 An object version is a value plus the mod revision etcd gave the write that
 produced it; one global revision grows with every committed write. `Evolves`
 is what any stretch of history does to the store, whoever wrote it, and
 `PinnedVersion` is the reason compare-and-swap and pinned deletes are safe to
 decide on a stale read.
 */
module Store {

  datatype Option<+T> = None | Some(value: T)

  datatype Version<+V> = Version(value: V, rev: nat)

  datatype Db<K, V> = Db(objs: map<K, Version<V>>, rev: nat)

  datatype Error = NotFound | AlreadyExists | Conflict | InvalidRevision

  datatype Outcome = Committed(rev: nat) | Refused(error: Error)

  // The two sentinels of Put's expected revision.
  const REV_CREATE: int := 0
  const REV_ANY: int := -1

  /** Every stored version carries a revision some past write was given. */
  ghost predicate WellFormed<K, V>(db: Db<K, V>) {
    forall k | k in db.objs :: 0 < db.objs[k].rev <= db.rev
  }

  /** The key still holds the version some read observed. */
  predicate Pinned<K, V>(objs: map<K, Version<V>>, k: K, rev: int) {
    k in objs && objs[k].rev == rev
  }

  /** `t` is a later state of `s`: what is stored is either untouched or newer than all of `s`. */
  ghost predicate Evolves<K, V>(s: Db<K, V>, t: Db<K, V>) {
    && s.rev <= t.rev
    && forall k | k in t.objs ::
         (k in s.objs && t.objs[k] == s.objs[k]) || s.rev < t.objs[k].rev <= t.rev
  }

  /** The state after one committed write of `v` under `k`. */
  function Written<K, V>(db: Db<K, V>, k: K, v: V): (r: Db<K, V>)
    ensures Evolves(db, r) && (WellFormed(db) ==> WellFormed(r))
    ensures r.rev > db.rev
  {
    Db(db.objs[k := Version(v, db.rev + 1)], db.rev + 1)
  }

  /** The state after one committed delete of `k`. */
  function Deleted<K, V>(db: Db<K, V>, k: K): (r: Db<K, V>)
    ensures Evolves(db, r) && (WellFormed(db) ==> WellFormed(r))
    ensures r.rev > db.rev && k !in r.objs
  {
    Db(db.objs - {k}, db.rev + 1)
  }

  lemma EvolvesTransitive<K, V>(s: Db<K, V>, t: Db<K, V>, u: Db<K, V>)
    requires Evolves(s, t) && Evolves(t, u)
    ensures Evolves(s, u)
  {
    forall k | k in u.objs
      ensures (k in s.objs && u.objs[k] == s.objs[k]) || s.rev < u.objs[k].rev <= u.rev
    {
      if k in t.objs && u.objs[k] == t.objs[k] {
        assert (k in s.objs && t.objs[k] == s.objs[k]) || s.rev < t.objs[k].rev <= t.rev;
      }
    }
  }

  /** A history: consecutive states, each a later state of the one before. */
  ghost predicate History<K, V>(h: seq<Db<K, V>>) {
    forall i | 0 <= i < |h| - 1 :: Evolves(h[i], h[i + 1])
  }

  lemma {:induction false} HistoryEvolves<K, V>(h: seq<Db<K, V>>, i: nat, j: nat)
    requires History(h) && i <= j < |h|
    ensures Evolves(h[i], h[j])
    decreases j - i
  {
    if i < j {
      HistoryEvolves(h, i, j - 1);
      assert Evolves(h[j - 1], h[j - 1 + 1]);
      EvolvesTransitive(h[i], h[j - 1], h[j]);
    }
  }

  /**
   No ABA: whenever a key shows the same mod revision at two moments of a
   history it held one and the same version at every moment in between.
   */
  lemma PinnedVersion<K, V>(h: seq<Db<K, V>>, i: nat, m: nat, j: nat, k: K)
    requires History(h) && i <= m <= j < |h| && WellFormed(h[i])
    requires k in h[i].objs && k in h[j].objs && h[i].objs[k].rev == h[j].objs[k].rev
    ensures k in h[m].objs && h[m].objs[k] == h[i].objs[k] == h[j].objs[k]
  {
    HistoryEvolves(h, i, j);
    HistoryEvolves(h, i, m);
    HistoryEvolves(h, m, j);
  }

  /** The store backed by etcd transactions. */
  class Etcd<K(==), V> {
    var db: Db<K, V>

    constructor ()
      ensures db == Db(map[], 0) && WellFormed(db)
    {
      db := Db(map[], 0);
    }

    method Get(k: K) returns (r: Option<Version<V>>)
      ensures r == None <==> k !in db.objs
      ensures r.Some? ==> r.value == db.objs[k]
    {
      r := if k in db.objs then Some(db.objs[k]) else None;
    }

    /** Put dispatches on the expected revision; a refused write changes nothing, revision included. */
    method Put(k: K, v: V, expected: int) returns (o: Outcome)
      requires WellFormed(db)
      modifies this
      ensures WellFormed(db) && Evolves(old(db), db)
      ensures o.Refused? ==> db == old(db)
      ensures o.Committed? ==> db == Written(old(db), k, v) && o.rev == db.rev == old(db).rev + 1
      ensures o.Committed? ==> db.objs == old(db).objs[k := Version(v, o.rev)]
      ensures o == Refused(AlreadyExists) <==> expected == 0 && k in old(db).objs
      ensures o == Refused(InvalidRevision) <==> expected < -1
      ensures o == Refused(Conflict) <==> expected > 0 && (k !in old(db).objs || old(db).objs[k].rev != expected)
      ensures o != Refused(NotFound)
    {
      if expected == REV_CREATE {
        if k in db.objs { return Refused(AlreadyExists); }
      } else if expected > 0 {
        if !Pinned(db.objs, k, expected) { return Refused(Conflict); }
      } else if expected != REV_ANY {
        return Refused(InvalidRevision);
      }
      db := Written(db, k, v);
      o := Committed(db.rev);
    }

    method Delete(k: K) returns (o: Outcome)
      requires WellFormed(db)
      modifies this
      ensures WellFormed(db) && Evolves(old(db), db)
      ensures o == Refused(NotFound) <==> k !in old(db).objs
      ensures o.Refused? ==> db == old(db) && o.error == NotFound
      ensures o.Committed? ==> db == Deleted(old(db), k) && o.rev == db.rev == old(db).rev + 1
      ensures o.Committed? ==> db.objs == old(db).objs - {k}
    {
      if k !in db.objs { return Refused(NotFound); }
      db := Deleted(db, k);
      o := Committed(db.rev);
    }

    /** Removes the name only while its mod revision is the one a read observed. */
    method DeleteIfRevision(k: K, expected: int) returns (o: Outcome)
      requires WellFormed(db)
      modifies this
      ensures WellFormed(db) && Evolves(old(db), db)
      ensures o.Refused? ==> db == old(db)
      ensures o.Committed? <==> expected > 0 && k in old(db).objs && old(db).objs[k].rev == expected
      ensures o.Committed? ==> db == Deleted(old(db), k) && o.rev == db.rev == old(db).rev + 1
      ensures o.Committed? ==> db.objs == old(db).objs - {k}
      ensures o == Refused(InvalidRevision) <==> expected <= 0
      ensures o == Refused(NotFound) <==> expected > 0 && k !in old(db).objs
      ensures o == Refused(Conflict) <==> expected > 0 && k in old(db).objs && old(db).objs[k].rev != expected
      ensures o != Refused(AlreadyExists)
    {
      if expected <= 0 { return Refused(InvalidRevision); }
      if k !in db.objs { return Refused(NotFound); }
      if !Pinned(db.objs, k, expected) { return Refused(Conflict); }
      db := Deleted(db, k);
      o := Committed(db.rev);
    }
  }

  // ---------------------------------------------------------------- failing calls

  /** Which calls out of the program fail, by call. */
  type Faults = nat -> bool

  /** None of the calls from `a` up to `b` failed. */
  ghost predicate NoFault(fails: Faults, a: nat, b: nat) {
    forall c: nat | a <= c < b :: !fails(c)
  }

  lemma NoFaultJoin(fails: Faults, a: nat, b: nat, c: nat)
    requires a <= b <= c
    ensures NoFault(fails, a, c) <==> NoFault(fails, a, b) && NoFault(fails, b, c)
  {}

  lemma OneCall(fails: Faults, k: nat, ok: bool)
    requires ok == !fails(k)
    ensures ok <==> NoFault(fails, k, k + 1)
  {}

  lemma NoCalls(fails: Faults, k: nat)
    ensures NoFault(fails, k, k)
  {}

  /** The names something failed for, each with the call that did. */
  type Failures = map<string, nat>

  /** Every name logged as failed is there for a failed call of its own, and no failed call goes unlogged. */
  ghost predicate Logged(failed: Failures, fails: Faults, a: nat, b: nat) {
    && (forall k | k in failed :: a <= failed[k] < b && fails(failed[k]))
    && (forall j, k | j in failed && k in failed && j != k :: failed[j] != failed[k])
    && (failed == map[] <==> NoFault(fails, a, b))
  }

  lemma NothingLogged(fails: Faults, a: nat, b: nat)
    requires NoFault(fails, a, b)
    ensures Logged(map[], fails, a, b)
  {}

  lemma LoggedMeans(failed: Failures, fails: Faults, a: nat, b: nat)
    requires Logged(failed, fails, a, b)
    ensures failed == map[] <==> NoFault(fails, a, b)
  {}

  /** The log after the calls from `b` up to `c`, all made for `k`. */
  lemma LoggedStep(failed: Failures, fails: Faults, a: nat, b: nat, c: nat, k: string, ok: bool) returns (log: Failures)
    requires Logged(failed, fails, a, b) && a <= b <= c && (ok <==> NoFault(fails, b, c))
    ensures Logged(log, fails, a, c) && if ok then log == failed else k in log && log == failed[k := log[k]]
    ensures !ok ==> b <= log[k]
  {
    NoFaultJoin(fails, a, b, c);
    log := failed;
    if !ok {
      var x: nat :| b <= x < c && fails(x);
      log := failed[k := x];
      assert k in log;
    }
  }
}
