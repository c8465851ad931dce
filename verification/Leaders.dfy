/**
 Overlapping leaders, agents and the scheduler on one set of instances.

 Any number of leader lives run workload passes on lists that may be stale by
 the time they act, agents report statuses by compare-and-swap, the scheduler
 binds, other actors delete, and time passes between any two steps. What a
 leader may delete, and when, is proved over every interleaving.
 */
module Leaders {
  import opened Store
  import opened Instances
  import opened Rollout

  /**
   One leader life: the targets it listed (a workload outside them is gone),
   the instances it listed, its in-memory drain deadlines by uid, and the
   instance whose DRAINING it just committed without having set the deadline.
   */
  datatype Leader = Leader(targets: map<string, Target>, listed: Objs, deadlines: map<nat, int>,
                           arming: Option<Instance>)

  /** A status report of `node`'s agent, or a scheduler decision, holding the version it read. */
  datatype Writer =
    | Report(name: string, node: string, uid: nat, phase: Phase, message: string, seen: Listed)
    | Bind(name: string, node: string, seen: Listed)
    | Explain(name: string, reason: string, seen: Listed)

  /**
   `since` is history, when each uid first became DRAINING; no step reads it.
   `timeouts` holds the drain timeout each uid was born with, and so the uids
   in use, which a create avoids.
   */
  datatype State = State(
    db: Db<string, Instance>,
    now: int,
    leaders: map<nat, Leader>,
    writers: map<nat, Writer>,
    since: map<nat, int>,
    timeouts: map<nat, int>)

  datatype Action =
    | Tick(seconds: nat)
    | Lead(l: nat)
    | Resign(l: nat)
    | ListWorkloads(l: nat, targets: map<string, Target>)
    | ListInstances(l: nat)
    | DeleteDoomed(l: nat, name: string)
    | DeleteUnready(l: nat, name: string)    // scale-down retiring a fresh instance that is not READY
    | DeleteOrphan(l: nat, name: string)     // its workload is gone
    | Expire(l: nat, name: string)           // drain deadline passed
    | Rearm(l: nat, name: string)            // drain with no known deadline
    | Drain(l: nat, name: string, reason: string)
    | SetDeadline(l: nat)
    | Create(inst: Instance)
    | Read(w: nat, writer: Writer)
    | Write(w: nat)
    | Abandon(w: nat)
    | RemovedElsewhere(name: string)         // evacuation, forced drain, operator delete

  const INITIAL := State(Db(map[], 0), 0, map[], map[], map[], map[])

  /** What a report or a scheduler write makes of the version it read; None when it writes nothing. */
  function Outcome(w: Writer): Option<Instance> {
    var i := w.seen.value;
    match w
    case Report(_, node, uid, phase, message, _) =>
      if i.node != node || i.uid != uid then None
      else Some(i.(phase := if i.phase == Phase.Draining && ServingPhase(phase) then Phase.Draining else phase,
                   message := message))
    case Bind(_, node, _) => if i.node != "" then None else Some(i.(node := node, message := ""))
    case Explain(_, reason, _) => if i.node != "" then None else Some(i.(phase := Pending, message := reason))
  }

  predicate Enabled(s: State, a: Action) {
    match a
    case Tick(_) => true
    case Lead(l) => l !in s.leaders
    case Resign(l) => l in s.leaders
    case ListWorkloads(l, _) => l in s.leaders
    case ListInstances(l) => l in s.leaders
    case DeleteDoomed(l, n) =>
      && Holds(s, l, n) && Wanted(s, l, n)
      && RoleOf(s.leaders[l].listed[n].value, s.leaders[l].targets[s.leaders[l].listed[n].value.workload]) == Doomed
    case DeleteUnready(l, n) =>
      && Holds(s, l, n) && Wanted(s, l, n) && s.leaders[l].listed[n].value.phase != Ready
      && RoleOf(s.leaders[l].listed[n].value, s.leaders[l].targets[s.leaders[l].listed[n].value.workload]) == Fresh
    case DeleteOrphan(l, n) => Holds(s, l, n) && !Wanted(s, l, n)
    case Expire(l, n) =>
      && Holds(s, l, n) && Wanted(s, l, n) && s.leaders[l].listed[n].value.phase == Phase.Draining
      && s.leaders[l].listed[n].value.uid in s.leaders[l].deadlines
      && s.now >= s.leaders[l].deadlines[s.leaders[l].listed[n].value.uid]
    case Rearm(l, n) =>
      && Holds(s, l, n) && Wanted(s, l, n) && s.leaders[l].listed[n].value.phase == Phase.Draining
      && s.leaders[l].listed[n].value.uid !in s.leaders[l].deadlines
    case Drain(l, n, _) =>
      Holds(s, l, n) && Wanted(s, l, n) && s.leaders[l].listed[n].value.phase == Ready && s.leaders[l].arming == None
    case SetDeadline(l) => l in s.leaders && s.leaders[l].arming.Some?
    case Create(i) => i.name !in s.db.objs && i.uid !in s.timeouts && i.node == "" && i.phase == Pending
    case Read(w, p) =>
      && w !in s.writers && p.name in s.db.objs && p.seen == s.db.objs[p.name]
      && (p.Report? || p.Bind? ==> p.node != "")
    case Write(w) => w in s.writers
    case Abandon(w) => w in s.writers
    case RemovedElsewhere(n) => n in s.db.objs
  }

  predicate Holds(s: State, l: nat, n: string) {
    l in s.leaders && n in s.leaders[l].listed
  }

  /** The instance's workload was in this pass's list. */
  predicate Wanted(s: State, l: nat, n: string)
    requires Holds(s, l, n)
  {
    s.leaders[l].listed[n].value.workload in s.leaders[l].targets
  }

  /** The action would delete `n` on the workload controller's behalf, workload present. */
  predicate Deletes(a: Action) {
    a.DeleteDoomed? || a.DeleteUnready? || a.Expire?
  }

  function Remove(s: State, l: nat, n: string): State
    requires Holds(s, l, n)
  {
    if Pinned(s.db.objs, n, s.leaders[l].listed[n].rev) then s.(db := Deleted(s.db, n)) else s
  }

  /** Commits `i` under `n`, noting the first moment its uid is DRAINING. */
  function Commit(s: State, n: string, i: Instance): State {
    s.(db := Written(s.db, n, i), since := Noted(s, i))
  }

  function Next(s: State, a: Action): State
    requires Enabled(s, a)
  {
    match a
    case Tick(d) => s.(now := s.now + d)
    case Lead(l) => s.(leaders := s.leaders[l := Leader(map[], map[], map[], None)])
    case Resign(l) => s.(leaders := s.leaders - {l})
    case ListWorkloads(l, targets) => s.(leaders := s.leaders[l := s.leaders[l].(targets := targets)])
    case ListInstances(l) =>
      var uids := set n | n in s.db.objs :: s.db.objs[n].value.uid;
      var kept := map u | u in s.leaders[l].deadlines && u in uids :: s.leaders[l].deadlines[u];
      s.(leaders := s.leaders[l := s.leaders[l].(listed := s.db.objs, deadlines := kept)])
    case DeleteDoomed(l, n) => Remove(s, l, n)
    case DeleteUnready(l, n) => Remove(s, l, n)
    case DeleteOrphan(l, n) => Remove(s, l, n)
    case Expire(l, n) => Remove(s, l, n)
    case Rearm(l, n) => Armed(s, l, s.leaders[l].listed[n].value)
    case Drain(l, n, reason) =>
      var seen := s.leaders[l].listed[n];
      if !Pinned(s.db.objs, n, seen.rev) then s else
        var i := seen.value.(phase := Phase.Draining, message := reason);
        var t := Commit(s, n, i);
        t.(leaders := t.leaders[l := t.leaders[l].(arming := Some(i))])
    case SetDeadline(l) =>
      var t := Armed(s, l, s.leaders[l].arming.value);
      t.(leaders := t.leaders[l := t.leaders[l].(arming := None)])
    case Create(i) => Commit(s, i.name, i).(timeouts := s.timeouts[i.uid := DrainTimeout(i)])
    case Read(w, p) => s.(writers := s.writers[w := p])
    case Write(w) =>
      var p := s.writers[w];
      var t := s.(writers := s.writers - {w});
      if Outcome(p) == None || !Pinned(s.db.objs, p.name, p.seen.rev) then t else Commit(t, p.name, Outcome(p).value)
    case Abandon(w) => s.(writers := s.writers - {w})
    case RemovedElsewhere(n) => s.(db := Deleted(s.db, n))
  }

  function Armed(s: State, l: nat, i: Instance): State
    requires l in s.leaders
  {
    s.(leaders := s.leaders[l := s.leaders[l].(deadlines := s.leaders[l].deadlines[i.uid := s.now + DrainTimeout(i)])])
  }

  // ---------------------------------------------------------------- the invariant

  /** A version some moment of the run stored. */
  ghost predicate VersionOk(s: State, n: string, v: Listed) {
    && v.value.name == n && v.rev <= s.db.rev
    && v.value.uid in s.timeouts && s.timeouts[v.value.uid] == DrainTimeout(v.value)
    && (v.value.phase == Phase.Draining ==> v.value.uid in s.since)
    && (v.value.phase == Phase.Draining || v.value.phase == Ready ==> v.value.node != "")
  }

  ghost predicate SeenOk(s: State, n: string, v: Listed) {
    VersionOk(s, n, v) && (Pinned(s.db.objs, n, v.rev) ==> s.db.objs[n] == v)
  }

  ghost predicate LeaderOk(s: State, c: Leader) {
    && (forall n | n in c.listed :: SeenOk(s, n, c.listed[n]))
    && (forall u | u in c.deadlines ::
          u in s.since && u in s.timeouts && c.deadlines[u] >= s.since[u] + s.timeouts[u])
    && (c.arming.Some? ==> var i := c.arming.value;
          i.uid in s.since && i.uid in s.timeouts && s.timeouts[i.uid] == DrainTimeout(i))
  }

  ghost predicate WriterOk(s: State, w: Writer) {
    SeenOk(s, w.name, w.seen) && (w.Report? || w.Bind? ==> w.node != "")
  }

  ghost predicate Inv(s: State) {
    && WellFormed(s.db)
    && (forall n | n in s.db.objs :: VersionOk(s, n, s.db.objs[n]))
    && (forall u | u in s.since :: s.since[u] <= s.now)
    && (forall l | l in s.leaders :: LeaderOk(s, s.leaders[l]))
    && (forall w | w in s.writers :: WriterOk(s, s.writers[w]))
  }

  /** Whatever a step does, versions only get newer, time moves on and history is kept. */
  ghost predicate Grows(s: State, t: State) {
    && Evolves(s.db, t.db) && s.now <= t.now
    && (forall u | u in s.since :: u in t.since && t.since[u] == s.since[u])
    && (forall u | u in s.timeouts :: u in t.timeouts && t.timeouts[u] == s.timeouts[u])
  }

  lemma SeenKept(s: State, t: State, n: string, v: Listed)
    requires Grows(s, t) && SeenOk(s, n, v)
    ensures SeenOk(t, n, v)
  {}

  lemma LeaderKept(s: State, t: State, c: Leader)
    requires Grows(s, t) && LeaderOk(s, c)
    ensures LeaderOk(t, c)
  {
    forall n | n in c.listed ensures SeenOk(t, n, c.listed[n]) {
      SeenKept(s, t, n, c.listed[n]);
    }
  }

  /** The invariant survives a step that leaves good what it touches: one leader, one writer, the store. */
  lemma Kept(s: State, t: State, l: nat, w: nat)
    requires Inv(s) && Grows(s, t) && WellFormed(t.db)
    requires forall n | n in t.db.objs ::
        (n in s.db.objs && t.db.objs[n] == s.db.objs[n]) || VersionOk(t, n, t.db.objs[n])
    requires forall u | u in t.since :: t.since[u] <= t.now
    requires t.leaders - {l} == s.leaders - {l} && (l in t.leaders ==> LeaderOk(t, t.leaders[l]))
    requires t.writers - {w} == s.writers - {w} && (w in t.writers ==> WriterOk(t, t.writers[w]))
    ensures Inv(t)
  {
    hide Grows, LeaderOk, WellFormed;
    forall n | n in t.db.objs ensures VersionOk(t, n, t.db.objs[n]) {
      if n in s.db.objs && t.db.objs[n] == s.db.objs[n] {
        SeenKept(s, t, n, s.db.objs[n]);
      }
    }
    forall i | i in t.leaders && i != l ensures LeaderOk(t, t.leaders[i]) {
      assert i in (t.leaders - {l});
      LeaderKept(s, t, s.leaders[i]);
    }
    forall i | i in t.writers && i != w ensures WriterOk(t, t.writers[i]) {
      assert i in (t.writers - {w});
      SeenKept(s, t, s.writers[i].name, s.writers[i].seen);
    }
  }

  /** The common case of Kept: no writer changes, and at most leader `l`. */
  lemma KeptByLeader(s: State, t: State, l: nat)
    requires Inv(s) && Grows(s, t) && WellFormed(t.db)
    requires forall n | n in t.db.objs ::
        (n in s.db.objs && t.db.objs[n] == s.db.objs[n]) || VersionOk(t, n, t.db.objs[n])
    requires forall u | u in t.since :: t.since[u] <= t.now
    requires t.writers == s.writers && t.leaders - {l} == s.leaders - {l}
    requires l in t.leaders ==> LeaderOk(t, t.leaders[l]) || (l in s.leaders && t.leaders[l] == s.leaders[l])
    ensures Inv(t)
  {
    if l in s.leaders {
      LeaderKept(s, t, s.leaders[l]);
    }
    if 0 in s.writers {
      SeenKept(s, t, s.writers[0].name, s.writers[0].seen);
    }
    Kept(s, t, l, 0);
  }

  lemma RemoveKeepsInv(s: State, l: nat, n: string)
    requires Inv(s) && Holds(s, l, n)
    ensures Inv(Remove(s, l, n))
  {
    hide LeaderOk, WriterOk, VersionOk;
    KeptByLeader(s, Remove(s, l, n), l);
  }

  /** Committing a change of a version the writer read keeps every stored version good. */
  lemma CommitGood(s: State, n: string, seen: Listed, i: Instance)
    requires WellFormed(s.db) && SeenOk(s, n, seen) && forall u | u in s.since :: s.since[u] <= s.now
    requires i == seen.value.(node := i.node, phase := i.phase, message := i.message)
    requires i.phase == Phase.Draining || i.phase == Ready ==> i.node != ""
    ensures var t := Commit(s, n, i);
            Grows(s, t) && WellFormed(t.db) && VersionOk(t, n, t.db.objs[n]) && forall u | u in t.since ::
                t.since[u] <= t.now
  {}

  lemma DrainGood(s: State, l: nat, n: string, reason: string)
    requires Enabled(s, Drain(l, n, reason)) && WellFormed(s.db) && LeaderOk(s, s.leaders[l])
    requires forall u | u in s.since :: s.since[u] <= s.now
    requires Pinned(s.db.objs, n, s.leaders[l].listed[n].rev)
    ensures var t := Next(s, Drain(l, n, reason));
            && Grows(s, t) && WellFormed(t.db) && VersionOk(t, n, t.db.objs[n]) && LeaderOk(t, t.leaders[l])
            && forall u | u in t.since :: t.since[u] <= t.now
  {
    var seen, c := s.leaders[l].listed[n], s.leaders[l];
    var i := seen.value.(phase := Phase.Draining, message := reason);
    assert SeenOk(s, n, seen);
    CommitGood(s, n, seen, i);
    LeaderKept(s, Commit(s, n, i), c);
  }

  lemma DrainKeepsInv(s: State, l: nat, n: string, reason: string)
    requires Inv(s) && Enabled(s, Drain(l, n, reason))
    ensures Inv(Next(s, Drain(l, n, reason)))
  {
    hide WriterOk, WellFormed, LeaderOk, VersionOk, Grows;
    if Pinned(s.db.objs, n, s.leaders[l].listed[n].rev) {
      DrainGood(s, l, n, reason);
      KeptByLeader(s, Next(s, Drain(l, n, reason)), l);
    }
  }

  lemma WriteGood(s: State, w: nat)
    requires w in s.writers && WellFormed(s.db) && WriterOk(s, s.writers[w])
    requires forall u | u in s.since :: s.since[u] <= s.now
    ensures var t := Next(s, Write(w));
            && Grows(s, t) && WellFormed(t.db) && (forall u | u in t.since :: t.since[u] <= t.now)
            && (t.db != s.db ==>
                  s.writers[w].name in t.db.objs && VersionOk(t, s.writers[w].name, t.db.objs[s.writers[w].name]))
  {
    var p := s.writers[w];
    if Outcome(p) != None && Pinned(s.db.objs, p.name, p.seen.rev) {
      OutcomeGood(s, p);
      CommitGood(s.(writers := s.writers - {w}), p.name, p.seen, Outcome(p).value);
    }
  }

  lemma WriteKeepsInv(s: State, w: nat)
    requires Inv(s) && w in s.writers
    ensures Inv(Next(s, Write(w)))
  {
    hide WriterOk, WellFormed, LeaderOk, VersionOk, Grows, Outcome;
    WriteGood(s, w);
    if 0 in s.leaders {
      LeaderKept(s, Next(s, Write(w)), s.leaders[0]);
    }
    Kept(s, Next(s, Write(w)), 0, w);
  }

  lemma OutcomeGood(s: State, p: Writer)
    requires WriterOk(s, p) && Outcome(p).Some?
    ensures var i := Outcome(p).value;
            && i == p.seen.value.(node := i.node, phase := i.phase, message := i.message)
            && (i.phase == Phase.Draining || i.phase == Ready ==> i.node != "")
  {}

  lemma CreateKeepsInv(s: State, i: Instance)
    requires Inv(s) && Enabled(s, Create(i))
    ensures Inv(Next(s, Create(i)))
  {
    KeptByLeader(s, Next(s, Create(i)), 0);
  }

  /** A leader that lists, or sets a deadline from the current time, stays good. */
  lemma LeaderStepGood(s: State, a: Action)
    requires Enabled(s, a) && (a.ListWorkloads? || a.ListInstances? || a.Rearm? || a.SetDeadline?)
    requires LeaderOk(s, s.leaders[a.l]) && forall u | u in s.since :: s.since[u] <= s.now
    requires forall n | n in s.db.objs :: VersionOk(s, n, s.db.objs[n])
    ensures LeaderOk(Next(s, a), Next(s, a).leaders[a.l])
  {}

  lemma LeaderKeepsInv(s: State, a: Action)
    requires Inv(s) && Enabled(s, a) && (a.ListWorkloads? || a.ListInstances? || a.Rearm? || a.SetDeadline?)
    ensures Inv(Next(s, a))
  {
    hide LeaderOk, VersionOk, WriterOk;
    LeaderStepGood(s, a);
    KeptByLeader(s, Next(s, a), a.l);
  }

  lemma NextKeepsInv(s: State, a: Action)
    requires Inv(s) && Enabled(s, a)
    ensures Inv(Next(s, a))
  {
    hide Inv;
    match a
    case DeleteDoomed(l, n) => RemoveKeepsInv(s, l, n);
    case DeleteUnready(l, n) => RemoveKeepsInv(s, l, n);
    case DeleteOrphan(l, n) => RemoveKeepsInv(s, l, n);
    case Expire(l, n) => RemoveKeepsInv(s, l, n);
    case Drain(l, n, reason) => DrainKeepsInv(s, l, n, reason);
    case Write(w) => WriteKeepsInv(s, w);
    case Create(i) => CreateKeepsInv(s, i);
    case ListWorkloads(_, _) => LeaderKeepsInv(s, a);
    case ListInstances(_) => LeaderKeepsInv(s, a);
    case Rearm(_, _) => LeaderKeepsInv(s, a);
    case SetDeadline(_) => LeaderKeepsInv(s, a);
    case Lead(l) => TenureKeepsInv(s, a);
    case Resign(l) => TenureKeepsInv(s, a);
    case _ => OtherKeepsInv(s, a);
  }

  lemma ReadGood(s: State, w: nat, p: Writer)
    requires Enabled(s, Read(w, p)) && VersionOk(s, p.name, s.db.objs[p.name])
    ensures WriterOk(Next(s, Read(w, p)), p)
  {}

  lemma TenureKeepsInv(s: State, a: Action)
    requires Inv(s) && Enabled(s, a) && (a.Lead? || a.Resign?)
    ensures Inv(Next(s, a))
  {
    hide VersionOk, WriterOk;
    KeptByLeader(s, Next(s, a), a.l);
  }

  lemma OtherKeepsInv(s: State, a: Action)
    requires Inv(s) && Enabled(s, a) && (a.Tick? || a.Read? || a.Abandon? || a.RemovedElsewhere?)
    ensures Inv(Next(s, a))
  {
    hide VersionOk, LeaderOk, WriterOk;
    var t := Next(s, a);
    if 0 in s.leaders {
      LeaderKept(s, t, s.leaders[0]);
    }
    if a.Read? {
      ReadGood(s, a.w, a.writer);
      Kept(s, t, 0, a.w);
    } else if a.Abandon? {
      Kept(s, t, 0, a.w);
    } else {
      KeptByLeader(s, t, 0);
    }
  }

  // ---------------------------------------------------------------- over whole runs

  ghost predicate Run(states: seq<State>, acts: seq<Action>) {
    && |states| == |acts| + 1 && states[0] == INITIAL
    && forall i | 0 <= i < |acts| :: Enabled(states[i], acts[i]) && states[i + 1] == Next(states[i], acts[i])
  }

  lemma {:induction false} RunKeepsInv(states: seq<State>, acts: seq<Action>, i: nat)
    requires Run(states, acts) && i < |states|
    ensures Inv(states[i])
  {
    if i > 0 {
      RunKeepsInv(states, acts, i - 1);
      assert states[i - 1 + 1] == Next(states[i - 1], acts[i - 1]);
      NextKeepsInv(states[i - 1], acts[i - 1]);
    }
  }

  /**
   No leader, however stale its lists, deletes an instance that is READY at
   the instant of deletion while the instance's workload was in its list.
   */
  lemma JustifiedDeletion(states: seq<State>, acts: seq<Action>, i: nat)
    requires Run(states, acts) && i < |acts| && Deletes(acts[i]) && states[i + 1].db != states[i].db
    ensures acts[i].name in states[i].db.objs && states[i].db.objs[acts[i].name].value.phase != Ready
  {
    RunKeepsInv(states, acts, i);
    var s, a := states[i], acts[i];
    assert states[i + 1] == Next(s, a);
    assert LeaderOk(s, s.leaders[a.l]);
    assert SeenOk(s, a.name, s.leaders[a.l].listed[a.name]);
  }

  /**
   Whatever leaders come, go or overlap: while its workload is listed, a
   DRAINING instance is deleted by drain expiry alone, and no sooner than its
   drain timeout after it first became DRAINING.
   */
  lemma DrainNeverCutShort(states: seq<State>, acts: seq<Action>, i: nat)
    requires Run(states, acts) && i < |acts| && Deletes(acts[i]) && states[i + 1].db != states[i].db
    ensures acts[i].name in states[i].db.objs
    ensures var s, v := states[i], states[i].db.objs[acts[i].name].value;
            && (v.phase == Phase.Draining <==> acts[i].Expire?)
            && (v.phase == Phase.Draining ==>
                  v.uid in s.since && s.now >= s.since[v.uid] + if v.drainSeconds > 0 then v.drainSeconds else 30)
  {
    hide Evolves, WellFormed;
    RunKeepsInv(states, acts, i);
    var s, a := states[i], acts[i];
    assert states[i + 1] == Next(s, a);
    assert LeaderOk(s, s.leaders[a.l]);
    assert SeenOk(s, a.name, s.leaders[a.l].listed[a.name]);
  }

  /** The steps that store a new version. */
  predicate Commits(a: Action) {
    a.Drain? || a.Create? || a.Write?
  }

  /** Every other step at most removes a version, and notes no drain. */
  lemma OthersOnlyRemove(s: State, a: Action)
    requires Enabled(s, a) && !Commits(a)
    ensures Next(s, a).since == s.since
    ensures forall n | n in Next(s, a).db.objs :: n in s.db.objs && Next(s, a).db.objs[n] == s.db.objs[n]
  {
    hide Wanted, RoleOf, Evolves, WellFormed;
  }

  /** The name and value a committing step stores; None when its pin no longer holds or it writes nothing. */
  function Stored(s: State, a: Action): Option<(string, Instance)>
    requires Enabled(s, a) && Commits(a)
  {
    match a
    case Drain(l, n, reason) =>
      var seen := s.leaders[l].listed[n];
      if Pinned(s.db.objs, n, seen.rev) then Some((n, seen.value.(phase := Phase.Draining, message := reason)))
      else None
    case Create(i) => Some((i.name, i))
    case Write(w) =>
      var p := s.writers[w];
      if Outcome(p) == None || !Pinned(s.db.objs, p.name, p.seen.rev) then None else Some((p.name, Outcome(p).value))
  }

  lemma CommitIs(s: State, a: Action)
    requires Enabled(s, a) && Commits(a)
    ensures var t, c := Next(s, a), Stored(s, a);
            if c.None? then t.db == s.db && t.since == s.since
            else t.db == Written(s.db, c.value.0, c.value.1) && t.since == Noted(s, c.value.1)
  {
    hide Wanted, RoleOf, Evolves, WellFormed;
  }

  /** The notes after `i` was stored. */
  function Noted(s: State, i: Instance): map<nat, int> {
    if i.phase == Phase.Draining && i.uid !in s.since then s.since[i.uid := s.now] else s.since
  }

  /** What `since` records: the moment of the run at which the uid was first stored DRAINING. */
  lemma SinceIsFirst(s: State, a: Action, u: nat)
    requires Inv(s) && Enabled(s, a)
    requires u !in s.since && u in Next(s, a).since
    ensures Next(s, a).since[u] == s.now
    ensures forall n | n in s.db.objs && s.db.objs[n].value.uid == u :: s.db.objs[n].value.phase != Phase.Draining
    ensures exists n | n in Next(s, a).db.objs ::
              Next(s, a).db.objs[n].value.uid == u && Next(s, a).db.objs[n].value.phase == Phase.Draining
  {
    NoDrainUnnoted(s, u);
    hide Inv, Enabled, WellFormed, Evolves, Next, Stored;
    if Commits(a) {
      CommitIs(s, a);
      assert Next(s, a).db.objs[Stored(s, a).value.0].value == Stored(s, a).value.1;
    } else {
      OthersOnlyRemove(s, a);
    }
  }

  lemma NoDrainUnnoted(s: State, u: nat)
    requires Inv(s) && u !in s.since
    ensures forall n | n in s.db.objs && s.db.objs[n].value.uid == u :: s.db.objs[n].value.phase != Phase.Draining
  {
    forall n | n in s.db.objs && s.db.objs[n].value.uid == u ensures s.db.objs[n].value.phase != Phase.Draining {
      assert VersionOk(s, n, s.db.objs[n]);
    }
  }

  /**
   A stored DRAINING only moves forward: no step, by report or otherwise, takes
   it back to PENDING, RUNNING or READY under the same uid.
   */
  lemma DrainOnlyForward(states: seq<State>, acts: seq<Action>, i: nat, n: string)
    requires Run(states, acts) && i < |acts| && n in states[i].db.objs && n in states[i + 1].db.objs
    requires states[i].db.objs[n].value.phase == Phase.Draining
    requires states[i + 1].db.objs[n].value.uid == states[i].db.objs[n].value.uid
    ensures !ServingPhase(states[i + 1].db.objs[n].value.phase)
  {
    hide Inv, Next, Enabled;
    RunKeepsInv(states, acts, i);
    InvParts(states[i], n);
    DrainStep(states[i], acts[i], n);
  }

  lemma InvParts(s: State, n: string)
    requires Inv(s) && n in s.db.objs
    ensures VersionOk(s, n, s.db.objs[n]) && forall w | w in s.writers :: WriterOk(s, s.writers[w])
  {}

  lemma DrainStep(s: State, a: Action, n: string)
    requires Enabled(s, a) && n in s.db.objs && n in Next(s, a).db.objs
    requires VersionOk(s, n, s.db.objs[n]) && forall w | w in s.writers :: WriterOk(s, s.writers[w])
    requires s.db.objs[n].value.phase == Phase.Draining && Next(s, a).db.objs[n].value.uid == s.db.objs[n].value.uid
    ensures !ServingPhase(Next(s, a).db.objs[n].value.phase)
  {
    hide Evolves, WellFormed, Wanted, RoleOf;
    if !Commits(a) {
      OthersOnlyRemove(s, a);
    } else {
      CommitStep(s, a, n);
    }
  }

  lemma CommitStep(s: State, a: Action, n: string)
    requires Commits(a) && Enabled(s, a) && n in s.db.objs && n in Next(s, a).db.objs
    requires VersionOk(s, n, s.db.objs[n]) && forall w | w in s.writers :: WriterOk(s, s.writers[w])
    requires s.db.objs[n].value.phase == Phase.Draining && Next(s, a).db.objs[n].value.uid == s.db.objs[n].value.uid
    ensures !ServingPhase(Next(s, a).db.objs[n].value.phase)
  {
    hide Evolves, WellFormed, Wanted, RoleOf, Next;
    CommitIs(s, a);
    if a.Write? && s.writers[a.w].name == n {
      assert WriterOk(s, s.writers[a.w]);
    }
  }

  /** Each committed report is computed from the exact version it replaces. */
  lemma ReportReplacesWhatItRead(states: seq<State>, acts: seq<Action>, i: nat)
    requires Run(states, acts) && i < |acts| && acts[i].Write? && states[i + 1].db != states[i].db
    ensures var s, p := states[i], states[i].writers[acts[i].w];
            && p.name in s.db.objs && s.db.objs[p.name] == p.seen && Outcome(p).Some?
            && p.name in states[i + 1].db.objs && states[i + 1].db.objs[p.name].value == Outcome(p).value
  {
    RunKeepsInv(states, acts, i);
    assert states[i + 1] == Next(states[i], acts[i]);
    assert WriterOk(states[i], states[i].writers[acts[i].w]);
  }

  // ---------------------------------------------------------------- what each step does, on stored fields

  /** What a leader may do about an instance it listed. */
  lemma LeaderMay(s: State, l: nat, n: string, reason: string)
    requires l in s.leaders && n in s.leaders[l].listed
    ensures var c, i := s.leaders[l], s.leaders[l].listed[n].value;
            if i.workload !in c.targets then
              && Enabled(s, DeleteOrphan(l, n)) && !Enabled(s, Expire(l, n)) && !Enabled(s, Rearm(l, n))
              && !Enabled(s, Drain(l, n, reason)) && !Enabled(s, DeleteUnready(l, n)) && !Enabled(s, DeleteDoomed(l, n))
            else
              var tg, serves := c.targets[i.workload], i.phase == Ready || i.phase == Phase.Draining;
              var stale := i.hash != tg.hash || i.node in tg.drainingNodes;
              && !Enabled(s, DeleteOrphan(l, n))
              && (Enabled(s, Expire(l, n)) <==>
                    i.phase == Phase.Draining && i.uid in c.deadlines && s.now >= c.deadlines[i.uid])
              && (Enabled(s, Rearm(l, n)) <==> i.phase == Phase.Draining && i.uid !in c.deadlines)
              && (Enabled(s, Drain(l, n, reason)) <==> i.phase == Ready && c.arming == None)
              && (Enabled(s, DeleteUnready(l, n)) <==> !serves && !stale)
              && (Enabled(s, DeleteDoomed(l, n)) <==> !serves && stale)
  {}

  /** A controller's delete removes the version it listed if that is still the stored one, and nothing else ever. */
  lemma DeleteMeans(s: State, a: Action, m: string)
    requires Inv(s) && Enabled(s, a) && (Deletes(a) || a.DeleteOrphan?)
    ensures var hit := m == a.name && m in s.db.objs && s.db.objs[m] == s.leaders[a.l].listed[m];
            && (m in Next(s, a).db.objs <==> m in s.db.objs && !hit)
            && (m in Next(s, a).db.objs ==> Next(s, a).db.objs[m] == s.db.objs[m])
  {
    hide Inv, Remove, RoleOf, WellFormed, Evolves;
    assert Next(s, a) == Remove(s, a.l, a.name);
    RemoveMeans(s, a.l, a.name, m);
  }

  lemma RemoveMeans(s: State, l: nat, n: string, m: string)
    requires Inv(s) && Holds(s, l, n)
    ensures var t, hit := Remove(s, l, n), m == n && m in s.db.objs && s.db.objs[m] == s.leaders[l].listed[n];
            && (m in t.db.objs <==> m in s.db.objs && !hit) && (m in t.db.objs ==> t.db.objs[m] == s.db.objs[m])
  {
    assert SeenOk(s, n, s.leaders[l].listed[n]);
    hide LeaderOk, VersionOk, WriterOk, WellFormed, Inv;
  }

  /** What a listing takes in, and which deadlines outlive it: those of instances still there. */
  lemma ListMeans(s: State, l: nat, u: nat)
    requires l in s.leaders
    ensures Enabled(s, ListInstances(l))
    ensures var t := Next(s, ListInstances(l));
            && t.leaders[l].listed == s.db.objs && t.db == s.db
            && (u in t.leaders[l].deadlines <==>
                  u in s.leaders[l].deadlines && exists n | n in s.db.objs :: s.db.objs[n].value.uid == u)
            && (u in t.leaders[l].deadlines ==> t.leaders[l].deadlines[u] == s.leaders[l].deadlines[u])
  {}

  /**
   Lives begin and end freely. A new one knows nothing: no targets, no
   listing, and no deadline of its predecessor's. One that lists the
   workloads learns exactly those, and forgets nothing else.
   */
  lemma TenureMeans(s: State, l: nat, targets: map<string, Target>, m: nat)
    ensures Enabled(s, Lead(l)) <==> l !in s.leaders
    ensures Enabled(s, Resign(l)) <==> l in s.leaders
    ensures Enabled(s, ListWorkloads(l, targets)) <==> l in s.leaders
    ensures l !in s.leaders ==> Next(s, Lead(l)) == s.(leaders := s.leaders[l := Leader(map[], map[], map[], None)])
    ensures l in s.leaders ==> l !in Next(s, Resign(l)).leaders && Next(s, Resign(l)).db == s.db
    ensures l in s.leaders && m != l && m in s.leaders ==>
        m in Next(s, Resign(l)).leaders && Next(s, Resign(l)).leaders[m] == s.leaders[m]
    ensures l in s.leaders ==> var t := Next(s, ListWorkloads(l, targets));
                               && l in t.leaders && t.leaders[l].targets == targets && t.db == s.db
                               && t.leaders[l] == s.leaders[l].(targets := targets)
  {}

  /** The rest of the cluster: time passes, and writers read, give up or delete as they please. */
  lemma OthersMay(s: State, d: nat, w: nat, p: Writer, n: string)
    ensures Enabled(s, Tick(d)) && Next(s, Tick(d)) == s.(now := s.now + d)
    ensures Enabled(s, Read(w, p)) <==>
        && w !in s.writers && p.name in s.db.objs && s.db.objs[p.name] == p.seen
        && (p.Report? ==> p.node != "") && (p.Bind? ==> p.node != "")
    ensures Enabled(s, Read(w, p)) ==> Next(s, Read(w, p)) == s.(writers := s.writers[w := p])
    ensures Enabled(s, Write(w)) <==> w in s.writers
    ensures Enabled(s, Abandon(w)) <==> w in s.writers
    ensures w in s.writers ==> Next(s, Abandon(w)) == s.(writers := s.writers - {w})
    ensures Enabled(s, RemovedElsewhere(n)) <==> n in s.db.objs
    ensures n in s.db.objs ==> Next(s, RemovedElsewhere(n)).db.objs == s.db.objs - {n}
  {}

  /** What the writer's answer is worth, on the fields of the version it read. */
  ghost predicate Rewrites(p: Writer, i: Instance) {
    var was := p.seen.value;
    && i.name == was.name && i.uid == was.uid && i.created == was.created && i.workload == was.workload
    && i.hash == was.hash && i.drainSeconds == was.drainSeconds
    && match p
       case Report(_, node, uid, phase, message, _) =>
         && was.node == node && was.uid == uid && i.node == node && i.message == message
         && if was.phase == Phase.Draining && (phase == Pending || phase == Running || phase == Ready)
            then i.phase == Phase.Draining else i.phase == phase
       case Bind(_, node, _) => was.node == "" && i.node == node && i.message == "" && i.phase == was.phase
       case Explain(_, reason, _) => was.node == "" && i.node == "" && i.message == reason && i.phase == Pending
  }

  /**
   A write replaces the version it read if that is still stored and the answer
   still applies: a report for the same node and uid, a decision about an
   instance still unbound. In every other case, and on every other name, it does nothing.
   */
  lemma WriteMeans(s: State, w: nat, m: string)
    requires Inv(s) && w in s.writers
    ensures var t, p := Next(s, Write(w)), s.writers[w];
            var applies := if p.Report? then p.seen.value.node == p.node && p.seen.value.uid == p.uid
                           else p.seen.value.node == "";
            && (m in t.db.objs <==> m in s.db.objs)
            && if m == p.name && m in s.db.objs && s.db.objs[m] == p.seen && applies
               then Rewrites(p, t.db.objs[m].value) && t.db.objs[m].rev > s.db.rev
               else m in s.db.objs ==> t.db.objs[m] == s.db.objs[m]
  {
    var p := s.writers[w];
    OutcomeMeans(p);
    assert WriterOk(s, p);
    CommitIs(s, Write(w));
    hide Inv, Outcome, Rewrites, VersionOk, WellFormed, Evolves, Next;
  }

  lemma OutcomeMeans(p: Writer)
    ensures Outcome(p).Some? <==> if p.Report? then p.seen.value.node == p.node && p.seen.value.uid == p.uid
                                  else p.seen.value.node == ""
    ensures Outcome(p).Some? ==> Rewrites(p, Outcome(p).value)
  {}

  /** The drain itself: the listed version goes DRAINING, and the leader remembers whose deadline it owes. */
  lemma DrainMeans(s: State, l: nat, n: string, reason: string)
    requires l in s.leaders && n in s.leaders[l].listed && s.leaders[l].arming == None
    requires n in s.db.objs && s.db.objs[n] == s.leaders[l].listed[n]
    requires s.db.objs[n].value.phase == Ready && s.db.objs[n].value.workload in s.leaders[l].targets
    ensures Enabled(s, Drain(l, n, reason))
    ensures var t, i := Next(s, Drain(l, n, reason)), s.db.objs[n].value.(phase := Phase.Draining, message := reason);
            && n in t.db.objs && t.db.objs[n].value == i && t.db.objs - {n} == s.db.objs - {n}
            && l in t.leaders && t.leaders[l] == s.leaders[l].(arming := Some(i)) && t.now == s.now
  {}

  lemma DeadlineMeans(s: State, l: nat, i: Instance)
    requires l in s.leaders && s.leaders[l].arming == Some(i)
    ensures Enabled(s, SetDeadline(l))
    ensures var t, end := Next(s, SetDeadline(l)), s.now + if i.drainSeconds > 0 then i.drainSeconds else 30;
            && t.db == s.db && t.now == s.now && l in t.leaders
            && t.leaders[l] == s.leaders[l].(arming := None, deadlines := s.leaders[l].deadlines[i.uid := end])
  {}

  /** A leader that lists again a drain it has a deadline for deletes it at that deadline and not a second before. */
  lemma DeadlineEnds(s: State, l: nat, n: string, d: nat)
    requires l in s.leaders && n in s.db.objs && s.db.objs[n].value.phase == Phase.Draining
    requires s.db.objs[n].value.workload in s.leaders[l].targets && s.db.objs[n].value.uid in s.leaders[l].deadlines
    ensures Enabled(s, ListInstances(l))
    ensures var t := Next(Next(s, ListInstances(l)), Tick(d));
            && (Enabled(t, Expire(l, n)) <==> s.now + d >= s.leaders[l].deadlines[s.db.objs[n].value.uid])
            && (Enabled(t, Expire(l, n)) ==> Next(t, Expire(l, n)).db.objs == s.db.objs - {n})
  {}

  /** Retiring a READY instance, start to end: drained, then deleted once its timeout is over, not a second before. */
  lemma RetirementCompletes(s: State, l: nat, n: string, reason: string, d: nat)
    requires l in s.leaders && n in s.leaders[l].listed && s.leaders[l].arming == None
    requires n in s.db.objs && s.db.objs[n] == s.leaders[l].listed[n]
    requires s.db.objs[n].value.phase == Ready && s.db.objs[n].value.workload in s.leaders[l].targets
    ensures Enabled(s, Drain(l, n, reason))
    ensures var s1 := Next(s, Drain(l, n, reason));
            Enabled(s1, SetDeadline(l))
            && var s2 := Next(s1, SetDeadline(l));
            Enabled(s2, ListInstances(l))
            && var s3 := Next(Next(s2, ListInstances(l)), Tick(d));
            && (Enabled(s3, Expire(l, n)) <==>
                  d >= if s.db.objs[n].value.drainSeconds > 0 then s.db.objs[n].value.drainSeconds else 30)
            && (Enabled(s3, Expire(l, n)) ==> Next(s3, Expire(l, n)).db.objs == s.db.objs - {n})
  {
    hide Next, Enabled;
    DrainMeans(s, l, n, reason);
    var s1 := Next(s, Drain(l, n, reason));
    DeadlineMeans(s1, l, s1.db.objs[n].value);
    DeadlineEnds(Next(s1, SetDeadline(l)), l, n, d);
  }

  /** A drain some earlier leader began: a leader without its deadline waits one whole timeout from then, no longer. */
  lemma TakeoverCompletes(s: State, l: nat, n: string, d: nat)
    requires l in s.leaders && n in s.leaders[l].listed
    requires n in s.db.objs && s.db.objs[n] == s.leaders[l].listed[n] && s.db.objs[n].value.phase == Phase.Draining
    requires s.db.objs[n].value.workload in s.leaders[l].targets && s.db.objs[n].value.uid !in s.leaders[l].deadlines
    ensures Enabled(s, Rearm(l, n))
    ensures var t := Next(Next(s, Rearm(l, n)), Tick(d));
            && (Enabled(t, Expire(l, n)) <==>
                  d >= if s.db.objs[n].value.drainSeconds > 0 then s.db.objs[n].value.drainSeconds else 30)
            && (Enabled(t, Expire(l, n)) ==> Next(t, Expire(l, n)).db.objs == s.db.objs - {n})
  {
    hide RoleOf;
  }

  /**
   A created instance is PENDING and unbound, under a name and a uid not in
   use, and is stored as made with the timeout its spec asks for.
   */
  lemma CreateMeans(s: State, i: Instance)
    requires Inv(s)
    ensures Enabled(s, Create(i)) <==>
        i.name !in s.db.objs && i.uid !in s.timeouts && i.node == "" && i.phase == Pending
    ensures Enabled(s, Create(i)) ==>
        var t := Next(s, Create(i));
        && i.name in t.db.objs && t.db.objs[i.name].value == i && t.db.objs - {i.name} == s.db.objs
        && i.uid in t.timeouts && t.timeouts[i.uid] == (if i.drainSeconds > 0 then i.drainSeconds else 30)
    ensures Enabled(s, Create(i)) ==> forall m | m in s.db.objs :: s.db.objs[m].value.uid != i.uid
  {
    forall m | m in s.db.objs ensures s.db.objs[m].value.uid in s.timeouts {
      assert VersionOk(s, m, s.db.objs[m]);
    }
  }
}
