/**
 Node-index assignment across klited replicas.

 Register and the heartbeat heal pick an index on a stale list, write it by
 compare-and-swap, list again, and back off when another record shows the same
 index. Handlers of any number of replicas interleave here at the grain of one
 store operation, and any of them may die between two operations. The
 per-process mutex and the five-attempt cap are dropped: without them there
 are only more interleavings.
 */
module NodeIndex {
  import opened Store

  /**
   A node record as far as indices go. `asg` is a history variable, the store
   revision of the write that assigned the current index (0 with no index); no
   step decides on it.
   */
  datatype Record = Record(index: nat, asg: nat)

  type Seen = Version<Record>
  type NodeDb = Db<string, Record>

  const UNASSIGNED := Record(0, 0)

  /** A handler, by the store operation it performs next. */
  datatype Proc =
    | Register(name: string)                                                         // Get
    | RegisterGot(name: string, seen: Seen)                                          // List when fresh, else Put
    | RegisterPicked(name: string, seen: Seen, idx: nat)                             // Put the picked index
    | Checking(name: string, idx: nat, asg: nat, healing: bool)                      // List for the collision check
    | Yielding(name: string, idx: nat, asg: nat, healing: bool)                      // Get, the check found a holder
    | YieldGot(name: string, idx: nat, asg: nat, healing: bool, seen: Seen)          // Put index 0
    | Registered(name: string, idx: nat)                                             // the response went out
    | Heal(name: string, idx: nat)                                                   // Get
    | HealGot(name: string, idx: nat, seen: Seen)                                    // List for a holder
    | HealClear(name: string, idx: nat, seen: Seen)                                  // Put the reported index
    | Writer(name: string)                                                           // any other record writer: Get
    | WriterGot(name: string, seen: Seen)                                            // Put with the index it read

  /**
   `passed` holds the assignments whose collision check came back clean and
   `lost` those whose handler died before its check or yield finished.
   */
  datatype State = State(db: NodeDb, procs: map<nat, Proc>, passed: set<nat>, lost: set<nat>)

  datatype Action =
    | Start(pid: nat, proc: Proc)
    | Execute(pid: nat)
    | Crash(pid: nat)
    | Declare(name: string)      // apply creates the record without a status
    | Remove(name: string)       // the node controller's delete

  const INITIAL := State(Db(map[], 0), map[], {}, {})

  function Index(db: NodeDb, n: string): nat
    requires n in db.objs
  {
    db.objs[n].value.index
  }

  function Asg(db: NodeDb, n: string): nat
    requires n in db.objs
  {
    db.objs[n].value.asg
  }

  function Used(db: NodeDb): set<nat> {
    set n | n in db.objs :: Index(db, n)
  }

  /** What freeNodeIndex promises: the smallest index from 1 up that nobody holds. */
  ghost predicate SmallestFree(used: set<nat>, i: nat) {
    1 <= i && i !in used && forall j | 1 <= j < i :: j in used
  }

  function FreeFrom(used: set<nat>, i: nat): (r: nat)
    ensures i <= r && r !in used && forall j | i <= j < r :: j in used
    decreases |used|
  {
    if i !in used then i else
      var rest := used - {i};
      assert forall j | i + 1 <= j :: j in rest <==> j in used;
      FreeFrom(rest, i + 1)
  }

  method FreeNodeIndex(listed: seq<Record>) returns (i: nat)
    ensures SmallestFree(set r | r in listed :: r.index, i)
  {
    var used: set<nat> := {};
    for k := 0 to |listed|
      invariant used == set r | r in listed[..k] :: r.index
    {
      used := used + {listed[k].index};
      assert listed[..k + 1] == listed[..k] + [listed[k]];
    }
    assert listed[..|listed|] == listed;
    i := 1;
    ghost var above := used;
    while i in used
      invariant 1 <= i && forall j | 1 <= j < i :: j in used
      invariant forall j | i <= j :: j in above <==> j in used
      decreases |above|
    {
      above := above - {i};
      i := i + 1;
    }
  }

  /** Whether a record other than `name` holds `idx`. */
  predicate Held(db: NodeDb, name: string, idx: nat) {
    exists m | m in db.objs :: m != name && Index(db, m) == idx
  }

  method IndexHolder(listed: seq<(string, Record)>, name: string, idx: nat) returns (holder: string)
    requires forall p | p in listed :: p.0 != ""
    ensures holder != "" <==> exists p | p in listed :: p.0 != name && p.1.index == idx
    ensures holder != "" ==> holder != name && exists p | p in listed :: p.0 == holder && p.1.index == idx
  {
    for k := 0 to |listed|
      invariant forall p | p in listed[..k] :: !(p.0 != name && p.1.index == idx)
    {
      if listed[k].0 != name && listed[k].1.index == idx {
        return listed[k].0;
      }
    }
    return "";
  }

  // ---------------------------------------------------------------- the machine

  function Drop(s: State, pid: nat): State {
    s.(procs := s.procs - {pid})
  }

  function Goto(s: State, pid: nat, p: Proc): State {
    s.(procs := s.procs[pid := p])
  }

  function Assigning(s: State, pid: nat, name: string, idx: nat, healing: bool): State {
    var asg := s.db.rev + 1;
    Goto(s.(db := Written(s.db, name, Record(idx, asg))), pid, Checking(name, idx, asg, healing))
  }

  /** One store operation of a live handler. */
  function Perform(s: State, pid: nat): State
    requires pid in s.procs
  {
    match s.procs[pid]
    case Register(n) =>
      if n !in s.db.objs then Drop(s, pid) else Goto(s, pid, RegisterGot(n, s.db.objs[n]))
    case RegisterGot(n, seen) =>
      if seen.value.index == 0 then Goto(s, pid, RegisterPicked(n, seen, FreeFrom(Used(s.db), 1)))
      else if Pinned(s.db.objs, n, seen.rev) then
        Goto(s.(db := Written(s.db, n, seen.value)), pid, Registered(n, seen.value.index))
      else Goto(s, pid, Register(n))
    case RegisterPicked(n, seen, idx) =>
      if Pinned(s.db.objs, n, seen.rev) then Assigning(s, pid, n, idx, false) else Goto(s, pid, Register(n))
    case Checking(n, idx, asg, healing) =>
      if Held(s.db, n, idx) then Goto(s, pid, Yielding(n, idx, asg, healing))
      else
        var t := s.(passed := s.passed + {asg});
        if healing then Drop(t, pid) else Goto(t, pid, Registered(n, idx))
    case Yielding(n, idx, asg, healing) =>
      if n !in s.db.objs then Drop(s, pid)
      else if Index(s.db, n) == idx then Goto(s, pid, YieldGot(n, idx, asg, healing, s.db.objs[n]))
      else if healing then Drop(s, pid) else Goto(s, pid, Register(n))
    case YieldGot(n, idx, asg, healing, seen) =>
      if !Pinned(s.db.objs, n, seen.rev) then Goto(s, pid, Yielding(n, idx, asg, healing))
      else
        var t := s.(db := Written(s.db, n, UNASSIGNED));
        if healing then Drop(t, pid) else Goto(t, pid, Register(n))
    case Registered(_, _) => s
    case Heal(n, idx) =>
      if n !in s.db.objs || Index(s.db, n) != 0 then Drop(s, pid)
      else Goto(s, pid, HealGot(n, idx, s.db.objs[n]))
    case HealGot(n, idx, seen) =>
      if Held(s.db, n, idx) then Drop(s, pid) else Goto(s, pid, HealClear(n, idx, seen))
    case HealClear(n, idx, seen) =>
      if Pinned(s.db.objs, n, seen.rev) then Assigning(s, pid, n, idx, true) else Goto(s, pid, Heal(n, idx))
    case Writer(n) =>
      if n !in s.db.objs then Drop(s, pid) else Goto(s, pid, WriterGot(n, s.db.objs[n]))
    case WriterGot(n, seen) =>
      if Pinned(s.db.objs, n, seen.rev) then Drop(s.(db := Written(s.db, n, seen.value)), pid)
      else Goto(s, pid, Writer(n))
  }

  /** A handler between its assigning write and the end of its check or yield. */
  predicate InFlight(p: Proc) {
    p.Checking? || p.Yielding? || p.YieldGot?
  }

  predicate Enabled(s: State, a: Action) {
    match a
    case Start(pid, p) => pid !in s.procs && (p.Register? || p.Writer? || (p.Heal? && p.idx != 0))
    case Execute(pid) => pid in s.procs
    case Crash(pid) => pid in s.procs
    case Declare(n) => n !in s.db.objs
    case Remove(n) => n in s.db.objs
  }

  function Next(s: State, a: Action): State
    requires Enabled(s, a)
  {
    match a
    case Start(pid, p) => Goto(s, pid, p)
    case Execute(pid) => Perform(s, pid)
    case Crash(pid) =>
      var p := s.procs[pid];
      Drop(if InFlight(p) then s.(lost := s.lost + {p.asg}) else s, pid)
    case Declare(n) => s.(db := Written(s.db, n, UNASSIGNED))
    case Remove(n) => s.(db := Deleted(s.db, n))
  }

  /** A run: the states of the cluster from the empty one on, and the action between each two. */
  ghost predicate Run(states: seq<State>, acts: seq<Action>) {
    && |states| == |acts| + 1 && states[0] == INITIAL
    && forall i | 0 <= i < |acts| :: Enabled(states[i], acts[i]) && states[i + 1] == Next(states[i], acts[i])
  }

  // ---------------------------------------------------------------- the invariant

  ghost predicate Fresh(db: NodeDb, name: string, seen: Seen) {
    seen.rev <= db.rev && (Pinned(db.objs, name, seen.rev) ==> db.objs[name] == seen)
  }

  predicate HasSeen(p: Proc) {
    p.RegisterGot? || p.RegisterPicked? || p.YieldGot? || p.HealGot? || p.HealClear? || p.WriterGot?
  }

  ghost predicate ProcOk(s: State, p: Proc) {
    && (HasSeen(p) ==> Fresh(s.db, p.name, p.seen))
    && (p.RegisterPicked? || p.HealGot? || p.HealClear? ==> p.idx != 0 && p.seen.value.index == 0)
    && (p.Heal? ==> p.idx != 0)
    && (p.YieldGot? ==> p.seen.value.index == p.idx)
    && (InFlight(p) ==>
          && p.idx != 0 && 0 < p.asg <= s.db.rev && p.asg !in s.passed
          && forall n | n in s.db.objs && Asg(s.db, n) == p.asg :: n == p.name && Index(s.db, n) == p.idx)
  }

  ghost predicate RecordsOk(db: NodeDb) {
    && WellFormed(db)
    && (forall n | n in db.objs :: (Index(db, n) == 0 <==> Asg(db, n) == 0) && Asg(db, n) <= db.rev)
    && (forall m, n | m in db.objs && n in db.objs && m != n && Asg(db, m) != 0 :: Asg(db, m) != Asg(db, n))
  }

  ghost predicate ProcsOk(s: State) {
    && (forall i | i in s.procs :: ProcOk(s, s.procs[i]))
    && (forall i, j | i in s.procs && j in s.procs && i != j && InFlight(s.procs[i]) && InFlight(s.procs[j]) ::
          s.procs[i].asg != s.procs[j].asg)
  }

  /** Of two records with one index, the one assigned later never passed its check. */
  ghost predicate LaterNeverPassed(s: State) {
    forall m, n | m in s.db.objs && n in s.db.objs && m != n ::
      Index(s.db, m) == Index(s.db, n) != 0 && Asg(s.db, m) < Asg(s.db, n) ==> Asg(s.db, n) !in s.passed
  }

  ghost predicate AtWork(s: State, asg: nat) {
    exists i | i in s.procs :: InFlight(s.procs[i]) && s.procs[i].asg == asg
  }

  /** An index somebody still holds has passed its check, or its handler is at it, or died at it. */
  ghost predicate Accounted(s: State) {
    forall n | n in s.db.objs && Index(s.db, n) != 0 ::
      Asg(s.db, n) in s.passed + s.lost || AtWork(s, Asg(s.db, n))
  }

  ghost predicate Inv(s: State) {
    && RecordsOk(s.db) && ProcsOk(s) && LaterNeverPassed(s) && Accounted(s)
    && forall a | a in s.passed :: a <= s.db.rev
  }

  lemma AtWorkKept(s: State, t: State, pid: nat)
    requires t.procs - {pid} == s.procs - {pid}
    ensures forall asg | AtWork(s, asg) ::
              AtWork(t, asg) || (pid in s.procs && InFlight(s.procs[pid]) && s.procs[pid].asg == asg)
  {
    forall asg | AtWork(s, asg)
      ensures AtWork(t, asg) || (pid in s.procs && InFlight(s.procs[pid]) && s.procs[pid].asg == asg)
    {
      var i :| i in s.procs && InFlight(s.procs[i]) && s.procs[i].asg == asg;
      if i != pid {
        assert i in (s.procs - {pid});
        assert i in t.procs && t.procs[i] == s.procs[i];
      }
    }
  }

  /** The only things any step does to the records. */
  ghost predicate Touches(db: NodeDb, n: string, r: Record, after: NodeDb) {
    || after == db
    || after == Deleted(db, n)
    || (after == Written(db, n, r)
        && (r == UNASSIGNED || (n in db.objs && r == db.objs[n].value) || (r.index != 0 && r.asg == db.rev + 1)))
  }

  lemma OtherProcOk(s: State, t: State, n: string, r: Record, p: Proc)
    requires RecordsOk(s.db) && ProcOk(s, p) && Touches(s.db, n, r, t.db)
    requires InFlight(p) ==> p.asg !in t.passed
    ensures ProcOk(t, p)
  {}

  lemma OthersOk(s: State, t: State, pid: nat, n: string, r: Record)
    requires Inv(s) && Touches(s.db, n, r, t.db)
    requires t.procs - {pid} == s.procs - {pid}
    requires t.passed == s.passed
      || (pid in s.procs && InFlight(s.procs[pid]) && t.passed == s.passed + {s.procs[pid].asg})
    requires pid in t.procs ==> ProcOk(t, t.procs[pid])
    requires pid in t.procs && InFlight(t.procs[pid]) ==>
               t.procs[pid].asg > s.db.rev
               || (pid in s.procs && InFlight(s.procs[pid]) && s.procs[pid].asg == t.procs[pid].asg)
    ensures ProcsOk(t)
  {
    forall i | i in t.procs && i != pid
      ensures i in s.procs && t.procs[i] == s.procs[i] && ProcOk(t, t.procs[i])
    {
      assert i in (t.procs - {pid});
      OtherProcOk(s, t, n, r, s.procs[i]);
    }
  }

  lemma RecordsKept(db: NodeDb, n: string, r: Record, after: NodeDb)
    requires RecordsOk(db) && Touches(db, n, r, after)
    ensures RecordsOk(after)
  {}

  /**
   The heart of the argument: an earlier holder keeps its index in the record
   from the later write on, so the later handler's list cannot miss it.
   */
  lemma LaterStillLoses(s: State, t: State, pid: nat, n: string, r: Record)
    requires Inv(s) && Touches(s.db, n, r, t.db)
    requires t.passed == s.passed
      || (pid in s.procs && s.procs[pid].Checking? && t.db == s.db && !Held(s.db, s.procs[pid].name, s.procs[pid].idx)
          && t.passed == s.passed + {s.procs[pid].asg})
    ensures LaterNeverPassed(t)
    ensures forall a | a in t.passed :: a <= t.db.rev
  {
    if t.passed != s.passed {
      assert ProcOk(s, s.procs[pid]);
    }
    forall l, k | l in t.db.objs && k in t.db.objs && l != k
                  && Index(t.db, l) == Index(t.db, k) != 0 && Asg(t.db, l) < Asg(t.db, k)
      ensures Asg(t.db, k) !in t.passed
    {
      if k in s.db.objs && t.db.objs[k].value == s.db.objs[k].value {
        if l in s.db.objs && t.db.objs[l].value == s.db.objs[l].value {
          assert Asg(s.db, k) !in s.passed;
        }
      }
    }
  }

  lemma AccountedKept(s: State, t: State, pid: nat, n: string, r: Record)
    requires Inv(s) && Touches(s.db, n, r, t.db)
    requires t.procs - {pid} == s.procs - {pid} && s.lost <= t.lost && s.passed <= t.passed
    // a handler leaves its flight by passing, by dying, or once its assignment is off the record
    requires pid in s.procs && InFlight(s.procs[pid]) && !AtWork(t, s.procs[pid].asg) ==>
               s.procs[pid].asg in t.passed + t.lost
               || forall m | m in t.db.objs :: Asg(t.db, m) != s.procs[pid].asg
    // a newly assigned index has its handler at work
    requires t.db != s.db && r.asg > s.db.rev ==> AtWork(t, r.asg)
    ensures Accounted(t)
  {
    AtWorkKept(s, t, pid);
    forall m | m in t.db.objs && Index(t.db, m) != 0
      ensures Asg(t.db, m) in t.passed + t.lost || AtWork(t, Asg(t.db, m))
    {
      if Asg(t.db, m) <= s.db.rev {
        assert m in s.db.objs && Asg(s.db, m) == Asg(t.db, m) && Index(s.db, m) == Index(t.db, m);
      }
    }
  }

  /** What each step does, seen from the handler that takes it. */
  ghost predicate Legal(s: State, t: State, pid: nat, n: string, r: Record) {
    && Touches(s.db, n, r, t.db)
    && t.procs - {pid} == s.procs - {pid} && s.lost <= t.lost
    && (t.passed == s.passed
        || (pid in s.procs && s.procs[pid].Checking? && t.db == s.db
            && !Held(s.db, s.procs[pid].name, s.procs[pid].idx) && t.passed == s.passed + {s.procs[pid].asg}))
    && (pid in t.procs ==> ProcOk(t, t.procs[pid]))
    && (pid in t.procs && InFlight(t.procs[pid]) ==>
          t.procs[pid].asg > s.db.rev
          || (pid in s.procs && InFlight(s.procs[pid]) && s.procs[pid].asg == t.procs[pid].asg))
    && (pid in s.procs && InFlight(s.procs[pid]) ==>
          AtWork(t, s.procs[pid].asg) || s.procs[pid].asg in t.passed + t.lost
          || forall m | m in t.db.objs :: Asg(t.db, m) != s.procs[pid].asg)
    && (t.db != s.db && r.asg > s.db.rev ==> AtWork(t, r.asg))
  }

  lemma LegalKeepsInv(s: State, t: State, pid: nat, n: string, r: Record)
    requires Inv(s) && Legal(s, t, pid, n, r)
    ensures Inv(t)
  {
    OthersOk(s, t, pid, n, r);
    RecordsKept(s.db, n, r, t.db);
    LaterStillLoses(s, t, pid, n, r);
    AccountedKept(s, t, pid, n, r);
  }

  /** The record a step of `p` writes under its node, when it writes one. */
  function Writes(s: State, p: Proc): Record {
    match p
    case RegisterGot(_, seen) => seen.value
    case WriterGot(_, seen) => seen.value
    case RegisterPicked(_, _, idx) => Record(idx, s.db.rev + 1)
    case HealClear(_, idx, _) => Record(idx, s.db.rev + 1)
    case _ => UNASSIGNED
  }

  lemma FlightLegal(s: State, pid: nat)
    requires pid in s.procs && RecordsOk(s.db) && ProcOk(s, s.procs[pid]) && InFlight(s.procs[pid])
    ensures Legal(s, Perform(s, pid), pid, s.procs[pid].name, Writes(s, s.procs[pid]))
  {
    var t := Perform(s, pid);
    if pid in t.procs && InFlight(t.procs[pid]) {
      assert AtWork(t, t.procs[pid].asg);
    }
  }

  lemma AssignLegal(s: State, pid: nat)
    requires pid in s.procs && RecordsOk(s.db) && ProcOk(s, s.procs[pid])
    requires s.procs[pid].RegisterPicked? || s.procs[pid].HealClear?
    requires forall a | a in s.passed :: a <= s.db.rev
    ensures Legal(s, Perform(s, pid), pid, s.procs[pid].name, Writes(s, s.procs[pid]))
  {
    var t := Perform(s, pid);
    if InFlight(t.procs[pid]) {
      assert AtWork(t, t.procs[pid].asg);
    }
  }

  lemma RewriteLegal(s: State, pid: nat)
    requires pid in s.procs && RecordsOk(s.db) && ProcOk(s, s.procs[pid])
    requires s.procs[pid].RegisterGot? || s.procs[pid].WriterGot?
    ensures Legal(s, Perform(s, pid), pid, s.procs[pid].name, Writes(s, s.procs[pid]))
  {}

  lemma ReadLegal(s: State, pid: nat)
    requires pid in s.procs && RecordsOk(s.db) && ProcOk(s, s.procs[pid]) && !InFlight(s.procs[pid])
    requires Writes(s, s.procs[pid]) == UNASSIGNED && !s.procs[pid].RegisterGot? && !s.procs[pid].WriterGot?
    ensures Legal(s, Perform(s, pid), pid, s.procs[pid].name, UNASSIGNED)
  {
    assert Perform(s, pid).db == s.db;
  }

  lemma PerformKeepsInv(s: State, pid: nat)
    requires Inv(s) && pid in s.procs
    ensures Inv(Perform(s, pid))
  {
    var p := s.procs[pid];
    assert ProcOk(s, p);
    if InFlight(p) {
      FlightLegal(s, pid);
    } else if p.RegisterPicked? || p.HealClear? {
      AssignLegal(s, pid);
    } else if p.RegisterGot? || p.WriterGot? {
      RewriteLegal(s, pid);
    } else {
      ReadLegal(s, pid);
    }
    LegalKeepsInv(s, Perform(s, pid), pid, p.name, Writes(s, p));
  }

  lemma NextKeepsInv(s: State, a: Action)
    requires Inv(s) && Enabled(s, a)
    ensures Inv(Next(s, a))
  {
    var t := Next(s, a);
    match a
    case Start(pid, p) => LegalKeepsInv(s, t, pid, "", UNASSIGNED);
    case Execute(pid) => PerformKeepsInv(s, pid);
    case Crash(pid) => LegalKeepsInv(s, t, pid, "", UNASSIGNED);
    case Declare(n) => LegalKeepsInv(s, t, FreeFrom(s.procs.Keys, 0), n, UNASSIGNED);
    case Remove(n) => LegalKeepsInv(s, t, FreeFrom(s.procs.Keys, 0), n, UNASSIGNED);
  }

  // ---------------------------------------------------------------- over whole runs

  ghost predicate Reachable(s: State) {
    exists states, acts :: Run(states, acts) && states[|states| - 1] == s
  }

  lemma {:induction false} RunKeepsInv(states: seq<State>, acts: seq<Action>, i: nat)
    requires Run(states, acts) && i < |states|
    ensures Inv(states[i])
  {
    if i > 0 {
      RunKeepsInv(states, acts, i - 1);
      assert states[i - 1 + 1] == Next(states[i - 1], acts[i - 1]);
      NextKeepsInv(states[i - 1], acts[i - 1]);
    }
  }

  /**
   In every interleaving, crashes included: of two node records carrying the
   same nonzero index, at most one has passed its post-write collision check.
   */
  lemma AtMostOnePassed(s: State, m: string, n: string)
    requires Reachable(s) && m in s.db.objs && n in s.db.objs && m != n
    requires Index(s.db, m) == Index(s.db, n) != 0
    ensures !(Asg(s.db, m) in s.passed && Asg(s.db, n) in s.passed)
  {
    var states, acts :| Run(states, acts) && states[|states| - 1] == s;
    RunKeepsInv(states, acts, |states| - 1);
  }

  /**
   Of two records that share an index the later assignment never passed: its
   handler is still between write and check, or died there.
   */
  lemma DoubledOnlyUnchecked(s: State, m: string, n: string)
    requires Reachable(s) && m in s.db.objs && n in s.db.objs && m != n
    requires Index(s.db, m) == Index(s.db, n) != 0
    ensures Asg(s.db, m) != Asg(s.db, n)
    ensures var later := if Asg(s.db, m) < Asg(s.db, n) then Asg(s.db, n) else Asg(s.db, m);
            later !in s.passed && (later in s.lost || AtWork(s, later))
  {
    var states, acts :| Run(states, acts) && states[|states| - 1] == s;
    RunKeepsInv(states, acts, |states| - 1);
  }

  /**
   Exactly when an agent is told an index another record holds: its Register
   found the index set, so skipped the check, and the other record held it at
   that moment. An answer that went through the check is never doubled.
   */
  lemma DoubledAnswer(s: State, pid: nat, n: string, idx: nat)
    requires Reachable(s) && pid in s.procs && !s.procs[pid].Registered?
    requires pid in Perform(s, pid).procs && Perform(s, pid).procs[pid] == Registered(n, idx)
    ensures Held(Perform(s, pid).db, n, idx) <==> s.procs[pid].RegisterGot? && Held(s.db, n, idx)
  {
    hide Reachable, Evolves, WellFormed, FreeFrom;
    var t := Perform(s, pid);
    if s.procs[pid].RegisterGot? {
      assert forall m | m != n :: m in t.db.objs <==> m in s.db.objs;
      assert forall m | m in s.db.objs && m != n :: Index(t.db, m) == Index(s.db, m);
    }
  }

  /**
   A checked index stays exactly until the record's deletion or the
   write of a yield that still holds the stored version. That yield belongs to
   a different assignment of the same index to the same node, one that
   outlived a delete and re-apply of the record.
   */
  lemma PassedIndexSticks(s: State, a: Action, n: string)
    requires Reachable(s) && Enabled(s, a) && n in s.db.objs && Asg(s.db, n) in s.passed && Index(s.db, n) != 0
    ensures var t := Next(s, a);
            (n in t.db.objs && t.db.objs[n].value == s.db.objs[n].value) <==> a != Remove(n) && !Yields(s, a, n)
    ensures Yields(s, a, n) ==> s.procs[a.pid].idx == Index(s.db, n) && s.procs[a.pid].asg != Asg(s.db, n)
  {
    var states, acts :| Run(states, acts) && states[|states| - 1] == s;
    RunKeepsInv(states, acts, |states| - 1);
    if a.Execute? {
      assert ProcOk(s, s.procs[a.pid]);
    }
  }

  /** The step is a yield about to clear the record's index, on the version it read. */
  predicate Yields(s: State, a: Action, n: string) {
    && a.Execute? && a.pid in s.procs && s.procs[a.pid].YieldGot? && s.procs[a.pid].name == n
    && Pinned(s.db.objs, n, s.procs[a.pid].seen.rev)
  }

  // ---------------------------------------------------------------- what handlers do left alone

  /** The index a fresh Register picks: nobody holds it at that moment, and every smaller one is held. */
  lemma PicksSmallestFree(s: State, pid: nat)
    requires pid in s.procs && s.procs[pid].RegisterGot? && s.procs[pid].seen.value.index == 0
    ensures pid in Perform(s, pid).procs && Perform(s, pid).procs[pid].RegisterPicked? && Perform(s, pid).db == s.db
    ensures var p, q := s.procs[pid], Perform(s, pid).procs[pid];
            && q.name == p.name && q.seen == p.seen && q.idx >= 1
            && (forall m | m in s.db.objs :: s.db.objs[m].value.index != q.idx)
            && SmallestFree(set m | m in s.db.objs :: s.db.objs[m].value.index, q.idx)
  {
    var used := set n | n in s.db.objs :: s.db.objs[n].value.index;
    var i := Perform(s, pid).procs[pid].idx;
    assert Used(s.db) == used;
    forall m | m in s.db.objs ensures s.db.objs[m].value.index != i {
      assert s.db.objs[m].value.index in used;
    }
  }

  /** `t` is `s` with the record of `n` rewritten to carry index `i`. */
  ghost predicate Reindexed(s: State, t: State, n: string, i: nat) {
    && t.db.objs.Keys == s.db.objs.Keys && n in s.db.objs && t.db.objs[n].value.index == i
    && (forall m | m in s.db.objs && m != n :: t.db.objs[m] == s.db.objs[m])
  }

  /** A Register of a declared node without an index, left alone, is answered with a free index and stores it. */
  lemma FreshRegister(s: State, pid: nat, n: string)
    requires pid in s.procs && s.procs[pid] == Register(n) && n in s.db.objs && s.db.objs[n].value.index == 0
    ensures var s1 := Perform(s, pid); pid in s1.procs
    ensures var s2 := Perform(Perform(s, pid), pid); pid in s2.procs
    ensures var s3 := Perform(Perform(Perform(s, pid), pid), pid); pid in s3.procs
    ensures var t := Perform(Perform(Perform(Perform(s, pid), pid), pid), pid);
            && pid in t.procs && t.procs[pid].Registered? && t.procs[pid].name == n
            && Reindexed(s, t, n, t.procs[pid].idx) && Asg(t.db, n) in t.passed && t.procs[pid].idx >= 1
            && (forall m | m in s.db.objs :: s.db.objs[m].value.index != t.procs[pid].idx)
            && SmallestFree(set m | m in s.db.objs :: s.db.objs[m].value.index, t.procs[pid].idx)
  {
    var s1 := Perform(s, pid);
    assert s1.procs[pid] == RegisterGot(n, s.db.objs[n]) && s1.db == s.db;
    PicksSmallestFree(s1, pid);
    var s2 := Perform(s1, pid);
    hide FreeFrom;
    var i := s2.procs[pid].idx;
    var s3 := Perform(s2, pid);
    assert s3.procs[pid].Checking? && Index(s3.db, n) == i;
    assert forall m | m in s.db.objs && m != n :: s3.db.objs[m] == s.db.objs[m];
    assert !Held(s3.db, n, i);
  }

  /** A Register of a node that has an index is answered with it, unchecked; one of an undeclared node is refused. */
  lemma KnownRegister(s: State, pid: nat, n: string)
    requires pid in s.procs && s.procs[pid] == Register(n)
    ensures n !in s.db.objs ==> Perform(s, pid) == s.(procs := s.procs - {pid})
    ensures n in s.db.objs ==> pid in Perform(s, pid).procs
    ensures n in s.db.objs && s.db.objs[n].value.index != 0 ==>
        var t := Perform(Perform(s, pid), pid);
        && pid in t.procs && t.procs[pid] == Registered(n, s.db.objs[n].value.index)
        && Reindexed(s, t, n, s.db.objs[n].value.index)
  {}

  /** A lost race starts the handler over, and stores nothing. */
  lemma LostRaceRetries(s: State, pid: nat)
    requires pid in s.procs && HasSeen(s.procs[pid]) && !s.procs[pid].HealGot?
    requires s.procs[pid].RegisterGot? ==> s.procs[pid].seen.value.index != 0
    requires !Pinned(s.db.objs, s.procs[pid].name, s.procs[pid].seen.rev)
    ensures Perform(s, pid).db == s.db && pid in Perform(s, pid).procs
    ensures var p := s.procs[pid];
            Perform(s, pid).procs[pid] ==
            if p.HealClear? then Heal(p.name, p.idx)
            else if p.YieldGot? then Yielding(p.name, p.idx, p.asg, p.healing)
            else if p.WriterGot? then Writer(p.name) else Register(p.name)
  {}

  /** A collision found by the check makes the handler, left alone, clear the index again; Register then starts over. */
  lemma CollisionYields(s: State, pid: nat, m: string)
    requires pid in s.procs && s.procs[pid].Checking? && s.procs[pid].name in s.db.objs
    requires s.db.objs[s.procs[pid].name].value.index == s.procs[pid].idx
    requires m in s.db.objs && m != s.procs[pid].name && s.db.objs[m].value.index == s.procs[pid].idx
    ensures pid in Perform(s, pid).procs && pid in Perform(Perform(s, pid), pid).procs
    ensures var p, t := s.procs[pid], Perform(Perform(Perform(s, pid), pid), pid);
            && Reindexed(s, t, p.name, 0) && t.passed == s.passed
            && (if p.healing then pid !in t.procs else pid in t.procs && t.procs[pid] == Register(p.name))
  {
    assert Held(s.db, s.procs[pid].name, s.procs[pid].idx);
  }

  /** A yield whose record has gone, or carries another index by now, clears nothing. */
  lemma MootYield(s: State, pid: nat)
    requires pid in s.procs && s.procs[pid].Yielding?
    requires s.procs[pid].name in s.db.objs ==> s.db.objs[s.procs[pid].name].value.index != s.procs[pid].idx
    ensures var p, t := s.procs[pid], Perform(s, pid);
            && t.db == s.db && t.passed == s.passed
            && if p.name in s.db.objs && !p.healing then pid in t.procs && t.procs[pid] == Register(p.name)
               else pid !in t.procs
  {}

  /** A status write, left alone, moves the record's revision and neither its index nor anyone else's record. */
  lemma StatusWrite(s: State, pid: nat, n: string)
    requires pid in s.procs && s.procs[pid] == Writer(n)
    ensures n !in s.db.objs ==> Perform(s, pid) == s.(procs := s.procs - {pid})
    ensures n in s.db.objs ==> pid in Perform(s, pid).procs
    ensures n in s.db.objs ==>
        var t := Perform(Perform(s, pid), pid);
        && pid !in t.procs && Reindexed(s, t, n, s.db.objs[n].value.index)
        && t.db.objs[n].value == s.db.objs[n].value && t.db.objs[n].rev == s.db.rev + 1
  {}

  /** What may happen at any time: calls begin, processes die, operators declare and remove nodes. */
  lemma MayHappen(s: State, pid: nat, n: string, idx: nat)
    ensures Enabled(s, Start(pid, Register(n))) <==> pid !in s.procs
    ensures Enabled(s, Start(pid, Writer(n))) <==> pid !in s.procs
    ensures Enabled(s, Start(pid, Heal(n, idx))) <==> pid !in s.procs && idx > 0
    ensures Enabled(s, Execute(pid)) <==> pid in s.procs
    ensures Enabled(s, Crash(pid)) <==> pid in s.procs
    ensures pid in s.procs ==> pid !in Next(s, Crash(pid)).procs && Next(s, Crash(pid)).db == s.db
    ensures Enabled(s, Declare(n)) <==> n !in s.db.objs
    ensures n !in s.db.objs ==> Next(s, Declare(n)).db.objs == s.db.objs[n := Version(Record(0, 0), s.db.rev + 1)]
    ensures Enabled(s, Remove(n)) <==> n in s.db.objs
    ensures n in s.db.objs ==> Next(s, Remove(n)).db.objs == s.db.objs - {n}
  {}

  /** A heartbeat heals a record without an index to the one the agent reports, unless another record holds that. */
  lemma HealRestores(s: State, pid: nat, n: string, idx: nat)
    requires pid in s.procs && s.procs[pid] == Heal(n, idx) && n in s.db.objs
    requires s.db.objs[n].value.index == 0 && idx != 0
    ensures pid in Perform(s, pid).procs
    ensures var t := Perform(Perform(s, pid), pid);
            (exists m | m in s.db.objs :: m != n && s.db.objs[m].value.index == idx) ==>
              pid !in t.procs && t.db == s.db
    ensures (forall m | m in s.db.objs && m != n :: s.db.objs[m].value.index != idx) ==>
        pid in Perform(Perform(s, pid), pid).procs && pid in Perform(Perform(Perform(s, pid), pid), pid).procs
    ensures (forall m | m in s.db.objs && m != n :: s.db.objs[m].value.index != idx) ==>
        var t := Perform(Perform(Perform(Perform(s, pid), pid), pid), pid);
        pid !in t.procs && Reindexed(s, t, n, idx) && Asg(t.db, n) in t.passed
  {
    var s1 := Perform(s, pid);
    assert s1.procs[pid] == HealGot(n, idx, s.db.objs[n]) && s1.db == s.db;
    if !Held(s.db, n, idx) {
      var s2 := Perform(s1, pid);
      var s3 := Perform(s2, pid);
      assert forall m | m in s.db.objs && m != n :: s3.db.objs[m] == s.db.objs[m];
      assert !Held(s3.db, n, idx);
    } else {
      assert exists m | m in s.db.objs :: m != n && s.db.objs[m].value.index == idx;
    }
  }

  /** A heal never overwrites an index that is set. */
  lemma HealLeavesIndex(s: State, pid: nat, n: string, idx: nat)
    requires pid in s.procs && s.procs[pid] == Heal(n, idx) && (n !in s.db.objs || s.db.objs[n].value.index != 0)
    ensures Perform(s, pid) == s.(procs := s.procs - {pid})
  {}

  /** Exactly what becomes of a record's index in one step. */
  lemma IndexAfter(s: State, a: Action, n: string)
    requires Reachable(s) && Enabled(s, a) && n in s.db.objs && n in Next(s, a).db.objs
    ensures Next(s, a).db.objs[n].value.index
         == if a.Execute? && HasSeen(s.procs[a.pid]) && s.procs[a.pid].name == n
               && Pinned(s.db.objs, n, s.procs[a.pid].seen.rev)
               && (s.procs[a.pid].RegisterPicked? || s.procs[a.pid].HealClear? || s.procs[a.pid].YieldGot?)
            then if s.procs[a.pid].YieldGot? then 0 else s.procs[a.pid].idx
            else s.db.objs[n].value.index
  {
    var states, acts :| Run(states, acts) && states[|states| - 1] == s;
    RunKeepsInv(states, acts, |states| - 1);
    hide Run, Reachable, FreeFrom;
    if a.Execute? {
      assert ProcOk(s, s.procs[a.pid]);
    }
  }

  lemma Reach(s: State, a: Action)
    requires Reachable(s) && Enabled(s, a)
    ensures Reachable(Next(s, a))
  {
    var states, acts :| Run(states, acts) && states[|states| - 1] == s;
    var longer := states + [Next(s, a)];
    assert Run(longer, acts + [a]);
    assert longer[|longer| - 1] == Next(s, a);
  }

  lemma ReachInitial()
    ensures Reachable(INITIAL)
  {
    assert Run([INITIAL], []);
    assert [INITIAL][|[INITIAL]| - 1] == INITIAL;
  }

  lemma TwoDeclared() returns (s: State)
    ensures Reachable(s)
    ensures s == State(Db(map["a" := Version(UNASSIGNED, 1), "b" := Version(UNASSIGNED, 2)], 2), map[], {}, {})
  {
    ReachInitial();
    Reach(INITIAL, Declare("a"));
    s := Next(INITIAL, Declare("a"));
    assert s.db.objs == map["a" := Version(UNASSIGNED, 1)];
    Reach(s, Declare("b"));
    s := Next(s, Declare("b"));
  }

  /** One handler starts a Register of `n` and reads its record. */
  lemma ReadBy(s: State, pid: nat, n: string) returns (t: State)
    requires Reachable(s) && pid !in s.procs && n in s.db.objs
    ensures Reachable(t) && t == Goto(s, pid, RegisterGot(n, s.db.objs[n]))
  {
    Reach(s, Start(pid, Register(n)));
    t := Next(s, Start(pid, Register(n)));
    Reach(t, Execute(pid));
    t := Next(t, Execute(pid));
    assert t.procs == Goto(s, pid, RegisterGot(n, s.db.objs[n])).procs;
  }

  /** It finds no index set and picks 1 off a list of records without one. */
  lemma PickedBy(s: State, pid: nat, n: string) returns (t: State)
    requires Reachable(s) && pid in s.procs && n in s.db.objs && s.procs[pid] == RegisterGot(n, s.db.objs[n])
    requires forall m | m in s.db.objs :: Index(s.db, m) == 0
    ensures Reachable(t) && t == Goto(s, pid, RegisterPicked(n, s.db.objs[n], 1))
  {
    Reach(s, Execute(pid));
    t := Next(s, Execute(pid));
    assert 1 !in Used(s.db);
  }

  lemma BothPicked() returns (s: State)
    ensures Reachable(s)
    ensures s == State(Db(map["a" := Version(UNASSIGNED, 1), "b" := Version(UNASSIGNED, 2)], 2),
                       map[1 := RegisterPicked("a", Version(UNASSIGNED, 1), 1),
                           2 := RegisterPicked("b", Version(UNASSIGNED, 2), 1)], {}, {})
  {
    s := TwoDeclared();
    hide Reachable, Next, Enabled;
    s := ReadBy(s, 1, "a");
    s := ReadBy(s, 2, "b");
    s := PickedBy(s, 1, "a");
    s := PickedBy(s, 2, "b");
  }

  /** Two replicas write the same free index into two records; neither has checked yet. */
  lemma BothAssigned() returns (s: State)
    ensures Reachable(s)
    ensures s == State(Db(map["a" := Version(Record(1, 3), 3), "b" := Version(Record(1, 4), 4)], 4),
                       map[1 := Checking("a", 1, 3, false), 2 := Checking("b", 1, 4, false)], {}, {})
  {
    s := BothPicked();
    Reach(s, Execute(1));
    s := Next(s, Execute(1));
    assert s.db.objs == map["a" := Version(Record(1, 3), 3), "b" := Version(UNASSIGNED, 2)];
    Reach(s, Execute(2));
    s := Next(s, Execute(2));
    assert s.procs == map[1 := Checking("a", 1, 3, false), 2 := Checking("b", 1, 4, false)];
  }

  lemma BothCrashed() returns (s: State)
    ensures Reachable(s) && s.procs == map[]
    ensures s.db.objs == map["a" := Version(Record(1, 3), 3), "b" := Version(Record(1, 4), 4)]
  {
    s := BothAssigned();
    Reach(s, Crash(1));
    s := Next(s, Crash(1));
    Reach(s, Crash(2));
    s := Next(s, Crash(2));
  }

  /**
   The limit of the protocol: with both handlers dead before their checks, the
   next Registers find an index set, skip the check, and two agents are told
   the same index.
   */
  lemma UncheckedIndexHandedOutTwice() returns (s: State)
    ensures Reachable(s)
    ensures s.procs == map[3 := Registered("a", 1), 4 := Registered("b", 1)]
    ensures s.db.objs.Keys == {"a", "b"} && Index(s.db, "a") == Index(s.db, "b") == 1
  {
    s := BothCrashed();
    s := ReadBy(s, 3, "a");
    s := ReadBy(s, 4, "b");
    Reach(s, Execute(3));
    s := Next(s, Execute(3));
    Reach(s, Execute(4));
    s := Next(s, Execute(4));
  }

  lemma CollisionSeen() returns (s: State)
    ensures Reachable(s) && s.procs.Keys == {1, 2} && s.procs[2] == Yielding("b", 1, 4, false)
    ensures s.db.objs.Keys == {"a", "b"} && s.db.rev == 4
  {
    s := BothAssigned();
    assert Held(s.db, "b", 1) by { assert Index(s.db, "a") == 1; }
    Reach(s, Execute(2));
    s := Next(s, Execute(2));
  }

  lemma YielderOutlivesRecord() returns (s: State)
    ensures Reachable(s) && s.procs.Keys == {1, 2} && s.procs[2] == Yielding("b", 1, 4, false)
    ensures s.db == Db(map["b" := Version(UNASSIGNED, 7)], 7)
  {
    s := CollisionSeen();
    Reach(s, Remove("b"));
    s := Next(s, Remove("b"));
    Reach(s, Remove("a"));
    s := Next(s, Remove("a"));
    assert s.db.objs == map[];
    Reach(s, Declare("b"));
    s := Next(s, Declare("b"));
  }

  /**
   The exception of PassedIndexSticks happens: a yield compares index values,
   not assignments, so one that slept through a delete and re-apply clears an
   index that a later Register checked.
   */
  lemma YieldErasesCheckedIndex() returns (s: State, pid: nat)
    ensures Reachable(s) && Enabled(s, Execute(pid))
    ensures "b" in s.db.objs && Index(s.db, "b") == 1 && Asg(s.db, "b") in s.passed
    ensures "b" in Next(s, Execute(pid)).db.objs && Index(Next(s, Execute(pid)).db, "b") == 0
  {
    s := YielderOutlivesRecord();
    s := ReadBy(s, 3, "b");
    s := PickedBy(s, 3, "b");
    Reach(s, Execute(3));
    s := Next(s, Execute(3));
    assert s.db.objs == map["b" := Version(Record(1, 8), 8)];
    Reach(s, Execute(3));
    s := Next(s, Execute(3));
    Reach(s, Execute(2));
    s := Next(s, Execute(2));
    pid := 2;
  }
}
