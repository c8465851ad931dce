/**
 The node agent's reconciler: it converges the node's containers on the
 desired instances, restarting crashed ones behind a backoff gate and never
 restarting one that drains.

 Every runtime call may fail; a failing call leaves what the runtime can leave
 behind (a stopped orphan, a created container that never started). Time
 advances by arbitrary amounts between looks at the clock.
 */
module Agent {
  import opened Store
  import opened Instances

  /** A desired instance as the snapshot carries it; `probed` when it has a readiness probe. */
  datatype Desired = Desired(name: string, uid: string, hash: string, probed: bool, phase: Phase, restarts: int)

  datatype Container = Container(name: string, uid: string, hash: string, running: bool, ip: string, exitCode: int)

  type Containers = map<nat, Container>

  datatype Message = Nothing | GoneDraining | ExitedDraining(code: int) | Exited(code: int) | Fault

  /** `strikes` is history, the crashes and failures of the UID so far; no step reads it. */
  datatype InstState = InstState(uid: string, phase: Phase, restarts: int, container: Option<nat>, ip: string,
                                 message: Message, backoff: nat, nextTry: nat, awaiting: bool, draining: bool,
                                 strikes: nat)

  type Wants = map<string, Desired>
  type States = map<string, InstState>

  // milliseconds
  const BACKOFF_START: nat := 1000
  const BACKOFF_CAP: nat := 30000

  function NextBackoff(d: nat): nat {
    if d <= 0 then BACKOFF_START else if 2 * d < BACKOFF_CAP then 2 * d else BACKOFF_CAP
  }

  /** The backoff after `k` strikes. */
  function Backoff(k: nat): nat {
    if k == 0 then 0 else NextBackoff(Backoff(k - 1))
  }

  function Pow2(k: nat): nat {
    if k == 0 then 1 else 2 * Pow2(k - 1)
  }

  /** The retry delay doubles from one second and stops at thirty. */
  lemma {:induction false} BackoffDoubles(k: nat)
    ensures var exact := 1000 * Pow2(k); Backoff(k + 1) == if exact < 30000 then exact else 30000
  {
    if k > 0 {
      BackoffDoubles(k - 1);
    }
  }

  /** What a failure leaves: FAILED, and a gate shut for the next backoff from a moment between `t0` and `t1`. */
  predicate Armed(st: InstState, after: InstState, t0: nat, t1: nat) {
    var b := NextBackoff(st.backoff);
    && after == st.(phase := Failed, message := Fault, backoff := b, nextTry := after.nextTry,
                    strikes := st.strikes + 1)
    && t0 + b <= after.nextTry <= t1 + b
  }

  /** Nothing happened to the gate, or one strike moved it one backoff on. */
  predicate Tallies(st: InstState, after: InstState) {
    || (after.strikes == st.strikes && after.backoff == st.backoff)
    || (after.strikes == st.strikes + 1 && after.backoff == NextBackoff(st.backoff))
  }

  function StateFor(states: States, inst: Desired): InstState {
    if inst.name in states && states[inst.name].uid == inst.uid then states[inst.name]
    else InstState(inst.uid, Pending, inst.restarts, None, "", Nothing, 0, 0, false, false, 0)
  }

  /** Sticky: seen draining before, or told so now. */
  predicate Drains(inst: Desired, st: InstState) {
    st.draining || inst.phase == Draining
  }

  /** The container was started for this very instance and template. */
  predicate Claims(inst: Desired, c: Container) {
    c.name == inst.name && c.uid == inst.uid && c.hash == inst.hash
  }

  /** The containers that carry one instance name. */
  function Of(cs: Containers, n: string): Containers {
    map id | id in cs && cs[id].name == n :: cs[id]
  }

  type Match = Option<(nat, Container)>

  function Kept(m: Match): Containers {
    if m.None? then map[] else map[m.value.0 := m.value.1]
  }

  // ---------------------------------------------------------------- one instance's step

  function RunningPhase(inst: Desired, probeReady: set<string>): Phase {
    if !inst.probed || inst.name in probeReady then Ready else Running
  }

  function Observed(m: Match, st: InstState): InstState {
    if m.None? then st.(phase := Failed, message := GoneDraining, container := None, ip := "")
    else
      var (id, c) := m.value;
      if c.running then st.(phase := Phase.Draining, container := Some(id), ip := if c.ip != "" then c.ip else st.ip,
                            message := Nothing)
      else st.(phase := Failed, message := ExitedDraining(c.exitCode), container := Some(id), ip := "")
  }

  function Adopted(inst: Desired, probeReady: set<string>, id: nat, c: Container, st: InstState): InstState {
    st.(awaiting := false, phase := RunningPhase(inst, probeReady), container := Some(id),
        ip := if c.ip != "" then c.ip else st.ip, message := Nothing)
  }

  function Crashed(id: nat, c: Container, st: InstState, t: nat): InstState {
    var b := NextBackoff(st.backoff);
    st.(awaiting := true, backoff := b, nextTry := t + b, phase := Failed, message := Exited(c.exitCode),
        container := Some(id), ip := "", strikes := st.strikes + 1)
  }

  /** A new container of the instance runs, alone under its name. */
  ghost predicate Started(inst: Desired, probeReady: set<string>, next: nat, st: InstState, cs: Containers,
                          after: InstState) {
    && after.container.Some? && after.container.value >= next && cs.Keys == {after.container.value}
    && Claims(inst, cs[after.container.value]) && cs[after.container.value].running
    && after == st.(restarts := if st.awaiting then st.restarts + 1 else st.restarts, awaiting := false,
                    phase := RunningPhase(inst, probeReady), container := after.container, message := Nothing,
                    ip := after.ip)
  }

  /** A fault-free step of one instance at time `t`: `cs` are the containers of its name afterwards. */
  ghost predicate Stepped(inst: Desired, probeReady: set<string>, m: Match, before: InstState, t: nat, next: nat,
                          cs: Containers, after: InstState) {
    var st := before.(draining := Drains(inst, before));
    if st.draining then cs == Kept(m) && after == Observed(m, st)
    else if m.None? then
      if t < st.nextTry then cs == Kept(m) && after == st else Started(inst, probeReady, next, st, cs, after)
    else
      var (id, c) := m.value;
      if c.running then cs == Kept(m) && after == Adopted(inst, probeReady, id, c, st)
      else if !st.awaiting then cs == Kept(m) && after == Crashed(id, c, st, t)
      else if t < st.nextTry then cs == Kept(m) && after == st
      else Started(inst, probeReady, next, st, cs, after)
  }

  /** What even a faulty step keeps: draining and running containers stay, new ones are the instance's own. */
  ghost predicate Careful(inst: Desired, m: Match, before: InstState, next: nat, c0: Containers, c1: Containers,
                          after: InstState) {
    && (Drains(inst, before) || (m.Some? && m.value.1.running) ==> c1 == c0)
    && (forall id | id in c1 :: if id in c0 then c1[id] == c0[id] else id >= next && Claims(inst, c1[id]))
    && Bookkept(inst, before, after)
  }

  /** A container this instance's own step started: its name, UID and template, and running. */
  ghost predicate Launched(inst: Desired, next: nat, cs: Containers, id: nat) {
    && cs.Keys == {id} && id >= next && cs[id].running
    && cs[id].name == inst.name && cs[id].uid == inst.uid && cs[id].hash == inst.hash
  }

  /** What is remembered of the instance from one report to the next: restarts, backoff, gate, strikes. */
  ghost predicate SameGate(before: InstState, after: InstState) {
    && after.restarts == before.restarts && after.backoff == before.backoff && after.nextTry == before.nextTry
    && after.awaiting == before.awaiting && after.strikes == before.strikes
  }

  /** A fault-free step of a draining instance only watches: DRAINING while the container runs, FAILED afterwards. */
  lemma DrainingStepMeans(inst: Desired, ready: set<string>, m: Match, before: InstState, t: nat, next: nat,
                          cs: Containers, after: InstState)
    requires Stepped(inst, ready, m, before, t, next, cs, after) && (before.draining || inst.phase == Phase.Draining)
    ensures after.uid == before.uid && after.draining && SameGate(before, after)
    ensures cs == if m.Some? then map[m.value.0 := m.value.1] else map[]
    ensures after.container == if m.Some? then Some(m.value.0) else None
    ensures m.Some? && m.value.1.running ==>
        after.phase == Phase.Draining && after.message == Nothing
        && after.ip == if m.value.1.ip != "" then m.value.1.ip else before.ip
    ensures m.Some? && !m.value.1.running ==>
        after.phase == Failed && after.message == ExitedDraining(m.value.1.exitCode) && after.ip == ""
    ensures m.None? ==> after.phase == Failed && after.message == GoneDraining && after.ip == ""
  {}

  /**
   A fault-free step of an instance that does not drain. A running container
   is reported READY, or RUNNING while a probe has not passed; a dead one is
   noticed once, which doubles the backoff and shuts the gate; behind a shut
   gate nothing changes; with the gate open a new container replaces it.
   */
  lemma StepMeans(inst: Desired, ready: set<string>, m: Match, before: InstState, t: nat, next: nat,
                  cs: Containers, after: InstState)
    requires Stepped(inst, ready, m, before, t, next, cs, after)
    requires !before.draining && inst.phase != Phase.Draining
    ensures after.uid == before.uid && !after.draining
    ensures var up, noticed := m.Some? && m.value.1.running, m.None? || before.awaiting;
            if up then
              && cs == map[m.value.0 := m.value.1] && after.container == Some(m.value.0) && Serves(inst, ready, after)
              && after.ip == (if m.value.1.ip != "" then m.value.1.ip else before.ip)
              && SameGate(before, after.(awaiting := before.awaiting))
            else if !noticed then
              && cs == map[m.value.0 := m.value.1] && after.container == Some(m.value.0) && after.awaiting
              && after.phase == Failed && after.message == Exited(m.value.1.exitCode) && after.ip == ""
              && after.backoff == (if before.backoff == 0 then 1000
                                   else if before.backoff >= 15000 then 30000 else 2 * before.backoff)
              && after.nextTry == t + after.backoff && after.strikes == before.strikes + 1
              && after.restarts == before.restarts
            else if t < before.nextTry then
              cs == (if m.Some? then map[m.value.0 := m.value.1] else map[]) && after == before
            else
              && (exists id: nat :: Launched(inst, next, cs, id) && after.container == Some(id))
              && Serves(inst, ready, after)
              && after.restarts == before.restarts + (if before.awaiting then 1 else 0)
              && SameGate(before, after.(awaiting := before.awaiting, restarts := before.restarts))
  {
    if (m.None? || (!m.value.1.running && before.awaiting)) && t >= before.nextTry {
      assert Launched(inst, next, cs, after.container.value);
    }
  }

  /** How a running instance that does not drain is reported. */
  ghost predicate Serves(inst: Desired, ready: set<string>, after: InstState) {
    && !after.awaiting && after.message == Nothing
    && (after.phase == Ready <==> !inst.probed || inst.name in ready)
    && (after.phase == Running <==> inst.probed && inst.name !in ready)
  }

  /** An instance seen for the first time under its UID starts with a clean slate and an open gate; others go on. */
  lemma StateForMeans(states: States, inst: Desired)
    ensures var st := StateFor(states, inst);
            if inst.name in states && states[inst.name].uid == inst.uid then st == states[inst.name]
            else
              && st.uid == inst.uid && st.phase == Pending && st.restarts == inst.restarts && st.container == None
              && st.ip == "" && st.message == Nothing && st.backoff == 0 && st.nextTry == 0 && st.strikes == 0
              && !st.awaiting && !st.draining
  {}

  /** A failed runtime call is one strike: FAILED, and the next try a doubled backoff away. */
  lemma ArmedMeans(st: InstState, after: InstState, t0: nat, t1: nat)
    requires Armed(st, after, t0, t1)
    ensures after.phase == Failed && after.message == Fault && after.strikes == st.strikes + 1
    ensures after.backoff == if st.backoff == 0 then 1000 else if st.backoff >= 15000 then 30000 else 2 * st.backoff
    ensures t0 + after.backoff <= after.nextTry <= t1 + after.backoff
    ensures after.uid == st.uid && after.draining == st.draining && after.awaiting == st.awaiting
    ensures after.restarts == st.restarts && after.container == st.container && after.ip == st.ip
  {}

  // ---------------------------------------------------------------- matching

  /** Each desired name is matched with one of its claimants, if it has any. */
  ghost predicate Matches(desired: Wants, cs: Containers, byName: map<string, nat>) {
    && (forall n | n in byName ::
          n in desired && byName[n] in cs && cs[byName[n]].name == n && Claims(desired[n], cs[byName[n]]))
    && (forall id | id in cs && cs[id].name in desired && Claims(desired[cs[id].name], cs[id]) :: cs[id].name in byName)
  }

  predicate Matched(byName: map<string, nat>, n: string, id: nat) {
    n in byName && byName[n] == id
  }

  function MatchOf(cs: Containers, byName: map<string, nat>, n: string): Match {
    if n in byName && byName[n] in cs then Some((byName[n], cs[byName[n]])) else None
  }

  /** A match of the name with a container that is there. */
  predicate Pairs(cs: Containers, m: (nat, Container), n: string) {
    m.0 in cs && cs[m.0] == m.1 && m.1.name == n
  }

  /** A List answer: every container once, in any order. */
  ghost predicate ListsAll(listed: seq<(nat, Container)>, cs: Containers) {
    && (forall i | 0 <= i < |listed| :: listed[i].0 in cs && listed[i].1 == cs[listed[i].0])
    && (forall i, j | 0 <= i < j < |listed| :: listed[i].0 != listed[j].0)
    && (forall id | id in cs :: exists i | 0 <= i < |listed| :: listed[i].0 == id)
  }

  method MatchContainers(desired: Wants, listed: seq<(nat, Container)>, ghost cs: Containers)
      returns (byName: map<string, nat>, orphans: set<nat>)
    requires ListsAll(listed, cs) && forall n | n in desired :: desired[n].name == n
    ensures Matches(desired, cs, byName) && FirstListed(desired, listed, |listed|, byName)
    ensures forall id :: id in orphans <==> id in cs && !Matched(byName, cs[id].name, id)
  {
    hide Matches, Matching, FirstListed;
    byName, orphans := map[], {};
    ghost var seen: set<nat> := {};
    NothingMatched(desired, cs, listed);
    for i := 0 to |listed|
      invariant Matching(desired, cs, seen, byName, orphans)
      invariant forall k | 0 <= k < |listed| :: listed[k].0 in seen <==> k < i
      invariant FirstListed(desired, listed, i, byName)
    {
      var (id, c) := listed[i];
      MatchingStep(desired, cs, seen, byName, orphans, id);
      FirstListedStep(desired, listed, cs, seen, i, byName, orphans);
      if c.name in desired && c.name !in byName && c.uid == desired[c.name].uid && c.hash == desired[c.name].hash {
        byName := byName[c.name := id];
      } else {
        orphans := orphans + {id};
      }
      seen := seen + {id};
    }
    assert forall id | id in cs :: id in seen;
    MatchingEnds(desired, cs, seen, byName, orphans);
  }

  predicate Claimed(desired: Wants, c: Container) {
    c.name in desired && Claims(desired[c.name], c)
  }

  /** The containers seen so far sorted into matches and orphans. */
  ghost predicate Matching(desired: Wants, cs: Containers, seen: set<nat>, byName: map<string, nat>,
                           orphans: set<nat>) {
    && seen <= cs.Keys
    && (forall n | n in byName :: byName[n] in seen && cs[byName[n]].name == n && Claimed(desired, cs[byName[n]]))
    && (forall id | id in seen && Claimed(desired, cs[id]) :: cs[id].name in byName)
    && (forall id :: id in orphans <==> id in seen && !Matched(byName, cs[id].name, id))
  }

  /** Of several claimants the first listed one is matched. */
  ghost predicate FirstListed(desired: Wants, listed: seq<(nat, Container)>, i: nat, byName: map<string, nat>) {
    i <= |listed|
    && forall a, b | 0 <= a < b < i && Claimed(desired, listed[a].1) && listed[b].1.name == listed[a].1.name ::
         !Matched(byName, listed[b].1.name, listed[b].0)
  }

  lemma FirstListedStep(desired: Wants, listed: seq<(nat, Container)>, cs: Containers, seen: set<nat>, i: nat,
                        byName: map<string, nat>, orphans: set<nat>)
    requires ListsAll(listed, cs) && i < |listed| && FirstListed(desired, listed, i, byName)
    requires Matching(desired, cs, seen, byName, orphans)
    requires forall k | 0 <= k < |listed| :: listed[k].0 in seen <==> k < i
    ensures FirstListed(desired, listed, i + 1, byName)
    ensures listed[i].1.name !in byName ==> FirstListed(desired, listed, i + 1, byName[listed[i].1.name := listed[i].0])
  {
    hide Claims;
    assert !Matched(byName, listed[i].1.name, listed[i].0);
    assert forall a | 0 <= a < i && Claimed(desired, listed[a].1) :: listed[a].1.name in byName;
  }

  lemma NothingMatched(desired: Wants, cs: Containers, listed: seq<(nat, Container)>)
    ensures Matching(desired, cs, {}, map[], {}) && FirstListed(desired, listed, 0, map[])
  {}

  lemma MatchingStep(desired: Wants, cs: Containers, seen: set<nat>, byName: map<string, nat>, orphans: set<nat>,
                     id: nat)
    requires Matching(desired, cs, seen, byName, orphans) && id in cs && id !in seen
    ensures if Claimed(desired, cs[id]) && cs[id].name !in byName
            then Matching(desired, cs, seen + {id}, byName[cs[id].name := id], orphans)
            else Matching(desired, cs, seen + {id}, byName, orphans + {id})
  {
    hide Claims;
  }

  lemma MatchingEnds(desired: Wants, cs: Containers, seen: set<nat>, byName: map<string, nat>, orphans: set<nat>)
    requires Matching(desired, cs, seen, byName, orphans) && seen >= cs.Keys
    ensures Matches(desired, cs, byName)
    ensures forall id :: id in orphans <==> id in cs && !Matched(byName, cs[id].name, id)
  {}

  // ---------------------------------------------------------------- containers by name

  lemma OfMember(cs: Containers, n: string, id: nat)
    ensures id in Of(cs, n) <==> id in cs && cs[id].name == n
    ensures id in Of(cs, n) ==> Of(cs, n)[id] == cs[id]
  {}

  lemma StartedHere(inst: Desired, probeReady: set<string>, next: nat, st: InstState, c0: Containers, cs: Containers,
                    id: nat, after: InstState)
    requires id in cs && id !in c0 && cs[id].running && id >= next && Claims(inst, cs[id])
    requires after == st.(restarts := if st.awaiting then st.restarts + 1 else st.restarts, awaiting := false,
                          phase := RunningPhase(inst,
                                                probeReady), container := Some(id), message := Nothing, ip := after.ip)
    ensures Of(cs, inst.name).Keys == {id} ==> Started(inst, probeReady, next, st, Of(cs, inst.name), after)
  {
    hide RunningPhase;
  }

  lemma OfRemoved(cs: Containers, id: nat)
    requires id in cs
    ensures forall m :: Of(cs - {id}, m) == if m == cs[id].name then Of(cs, m) - {id} else Of(cs, m)
  {
    forall m ensures Of(cs - {id}, m) == if m == cs[id].name then Of(cs, m) - {id} else Of(cs, m) {
    }
  }

  lemma OfAdded(cs: Containers, id: nat, c: Container)
    requires id !in cs
    ensures forall m :: Of(cs[id := c], m) == if m == c.name then Of(cs, m)[id := c] else Of(cs, m)
  {
    forall m ensures Of(cs[id := c], m) == if m == c.name then Of(cs, m)[id := c] else Of(cs, m) {
    }
  }

  // ---------------------------------------------------------------- the agent

  class NodeAgent {
    var containers: Containers
    var nextId: nat
    var clock: nat
    var states: States
    var desired: Wants
    var probeReady: set<string>
    const fails: Faults
    var calls: nat

    constructor (fails: Faults)
      ensures Valid() && containers == map[] && states == map[] && desired == map[] && this.fails == fails
      ensures nextId == 0 && clock == 0 && calls == 0 && probeReady == {}
    {
      containers, nextId, clock, states, desired, probeReady := map[], 0, 0, map[], map[], {};
      this.fails, calls := fails, 0;
    }

    ghost predicate Valid()
      reads this`containers, this`nextId, this`desired
    {
      && (forall id | id in containers :: id < nextId)
      && (forall n | n in desired :: desired[n].name == n)
    }

    method Now() returns (t: nat)
      modifies this`clock
      ensures old(clock) <= clock && t == clock
    {
      var d: int := *;
      if d > 0 {
        clock := clock + d;
      }
      t := clock;
    }

    // the container runtime

    /** Whether the next runtime call succeeds. */
    method Call() returns (ok: bool)
      modifies this`calls
      ensures ok == !fails(old(calls)) && calls == old(calls) + 1
    {
      ok := !fails(calls);
      calls := calls + 1;
    }

    /** A failing call may or may not have stopped the container. */
    method StopInstance(id: nat) returns (ok: bool)
      requires id in containers
      modifies this`containers, this`calls
      ensures ok == !fails(old(calls)) && calls == old(calls) + 1
      ensures containers == old(containers)
           || containers == old(containers)[id := old(containers)[id].(running := false)]
      ensures ok ==> containers == old(containers)[id := old(containers)[id].(running := false)]
    {
      ok := Call();
      var stopped: bool := *;
      if ok || stopped {
        containers := containers[id := containers[id].(running := false)];
      }
    }

    method RemoveInstance(id: nat) returns (ok: bool)
      modifies this`containers, this`calls
      ensures ok == !fails(old(calls)) && calls == old(calls) + 1
      ensures containers == old(containers) || containers == old(containers) - {id}
      ensures ok ==> containers == old(containers) - {id}
    {
      ok := Call();
      var gone: bool := *;
      if ok || gone {
        containers := containers - {id};
      }
    }

    /** Creates and starts a container, force-removing whichever one may still hold its name. */
    method RunInstance(inst: Desired) returns (id: Option<nat>)
      requires Valid()
      modifies this`containers, this`nextId, this`calls
      ensures Valid() && nextId >= old(nextId) && id.Some? == !fails(old(calls)) && calls == old(calls) + 1
      ensures forall m | m != inst.name :: Of(containers, m) == Of(old(containers), m)
      ensures forall i | i in containers ::
                if i in old(containers) then containers[i] == old(containers)[i]
                else i >= old(nextId) && Claims(inst, containers[i])
      ensures id.Some? ==> id.value in containers && id.value !in old(containers) && containers[id.value].running
      ensures id.Some? && Of(old(containers), inst.name) == map[] ==> Of(containers, inst.name).Keys == {id.value}
    {
      hide Of;
      var holder: int := *;
      if holder in containers && containers[holder].name == inst.name {
        OfRemoved(containers, holder);
        OfMember(containers, inst.name, holder);
        containers := containers - {holder};
      }
      var started := Call();
      var created: bool, ip: string := *, *;
      if !started && !created {
        return None;
      }
      id := if started then Some(nextId) else None;
      OfAdded(containers, nextId, Container(inst.name, inst.uid, inst.hash, started, ip, 0));
      containers := containers[nextId := Container(inst.name, inst.uid, inst.hash, started, ip, 0)];
      nextId := nextId + 1;
    }

    // the reconciler

    method FailInstance(n: string, st: InstState)
      modifies this`states, this`clock
      ensures old(clock) <= clock && n in states && states == old(states)[n := states[n]]
      ensures Armed(st, states[n], old(clock), clock)
    {
      var t := Now();
      var b := NextBackoff(st.backoff);
      states := states[n := st.(phase := Failed, message := Fault, backoff := b, nextTry := t + b,
                                strikes := st.strikes + 1)];
    }

    method StartInstance(inst: Desired, st: InstState) returns (ok: bool, t: nat)
      requires Valid()
      modifies this`containers, this`nextId, this`clock, this`states, this`calls
      ensures Valid() && nextId >= old(nextId) && old(clock) <= t <= clock
      ensures calls >= old(calls) && (ok <==> NoFault(fails, old(calls), calls))
      ensures forall m | m != inst.name :: Of(containers, m) == Of(old(containers), m)
      ensures inst.name in states && states == old(states)[inst.name := states[inst.name]]
      ensures !ok ==> t >= st.nextTry && Armed(st, states[inst.name], t, clock)
      ensures forall i | i in containers ::
                if i in old(containers) then containers[i] == old(containers)[i]
                else i >= old(nextId) && Claims(inst, containers[i])
      ensures states[inst.name].uid == st.uid && states[inst.name].draining == st.draining
      ensures Tallies(st, states[inst.name])
      ensures t < st.nextTry ==> ok && containers == old(containers) && states[inst.name] == st
      ensures ok && t >= st.nextTry && Of(old(containers), inst.name) == map[] ==>
          Started(inst, probeReady, old(nextId), st, Of(containers, inst.name), states[inst.name])
    {
      hide NoFault, Of, Claims, Started;
      ghost var k := calls;
      NoCalls(fails, k);
      t := Now();
      if t < st.nextTry {
        states := states[inst.name := st];
        return true, t;
      }
      var image := Call();
      OneCall(fails, k, image);
      if !image {
        FailInstance(inst.name, st);
        return false, t;
      }
      var id := RunInstance(inst);
      OneCall(fails, k + 1, id.Some?);
      NoFaultJoin(fails, k, k + 1, calls);
      if id.None? {
        FailInstance(inst.name, st);
        return false, t;
      }
      var ip: string := *;
      OfMember(containers, inst.name, id.value);
      states := states[inst.name := st.(restarts := if st.awaiting then st.restarts + 1 else st.restarts,
                                        awaiting := false,
                                        phase := RunningPhase(inst, probeReady),
                                        container := id, message := Nothing, ip := ip)];
      StartedHere(inst, probeReady, old(nextId), st, old(containers), containers, id.value, states[inst.name]);
      ok := true;
    }

    method RestartInstance(inst: Desired, id: nat, c: Container, st: InstState) returns (ok: bool, t: nat)
      requires Valid() && id in containers && containers[id] == c && c.name == inst.name
      modifies this`containers, this`nextId, this`clock, this`states, this`calls
      ensures Valid() && nextId >= old(nextId) && old(clock) <= t <= clock
      ensures calls >= old(calls) && (ok <==> NoFault(fails, old(calls), calls))
      ensures forall m | m != inst.name :: Of(containers, m) == Of(old(containers), m)
      ensures inst.name in states && states == old(states)[inst.name := states[inst.name]]
      ensures !ok ==> st.awaiting && t >= st.nextTry && Armed(st, states[inst.name], t, clock)
      ensures forall i | i in containers ::
                if i in old(containers) then containers[i] == old(containers)[i]
                else i >= old(nextId) && Claims(inst, containers[i])
      ensures states[inst.name].uid == st.uid && states[inst.name].draining == st.draining
      ensures Tallies(st, states[inst.name])
      ensures !st.awaiting ==> ok && containers == old(containers) && states[inst.name] == Crashed(id, c, st, t)
      ensures st.awaiting && t < st.nextTry ==> ok && containers == old(containers) && states[inst.name] == st
      ensures ok && st.awaiting && t >= st.nextTry && Of(old(containers), inst.name) == map[id := c] ==>
          Started(inst, probeReady, old(nextId), st, Of(containers, inst.name), states[inst.name])
    {
      hide Of, Started, NoFault, Claims;
      ghost var k := calls;
      NoCalls(fails, k);
      t := Now();
      if !st.awaiting {
        states := states[inst.name := Crashed(id, c, st, t)];
        return true, t;
      }
      if t < st.nextTry {
        states := states[inst.name := st];
        return true, t;
      }
      OfRemoved(containers, id);
      ok := RemoveInstance(id);
      OneCall(fails, k, ok);
      if !ok {
        FailInstance(inst.name, st);
        return;
      }
      ok, t := StartInstance(inst, st);
      NoFaultJoin(fails, k, k + 1, calls);
    }

    method ReconcileInstance(inst: Desired, m: Match) returns (ok: bool, t: nat)
      requires Valid()
      requires m.Some? ==> Pairs(containers, m.value, inst.name)
      modifies this`containers, this`nextId, this`clock, this`states, this`calls
      ensures Valid() && nextId >= old(nextId) && old(clock) <= t <= clock
      ensures calls >= old(calls) && (ok <==> NoFault(fails, old(calls), calls))
      ensures forall n | n != inst.name :: Of(containers, n) == Of(old(containers), n)
      ensures inst.name in states && states == old(states)[inst.name := states[inst.name]]
      ensures var st := StateFor(old(states), inst);
              !ok ==> !Drains(inst, st) && Armed(st, states[inst.name], t, clock)
      ensures Careful(inst, m, StateFor(old(states), inst), old(nextId), old(containers), containers, states[inst.name])
      ensures ok && Of(old(containers), inst.name) == Kept(m) ==>
          Stepped(inst, probeReady, m, StateFor(old(states), inst), t, old(nextId), Of(containers, inst.name),
                  states[inst.name])
    {
      hide Of, Started, Crashed, NoFault, Armed;
      NoCalls(fails, calls);
      var st := StateFor(states, inst);
      st := st.(draining := Drains(inst, st));
      t := clock;
      if st.draining {
        states := states[inst.name := Observed(m, st)];
        ok := true;
      } else if m.None? {
        ok, t := StartInstance(inst, st);
      } else if m.value.1.running {
        states := states[inst.name := Adopted(inst, probeReady, m.value.0, m.value.1, st)];
        ok := true;
      } else {
        ok, t := RestartInstance(inst, m.value.0, m.value.1, st);
      }
    }

    /** Stops a running orphan, then removes it; a failed stop leaves it for the next pass. */
    method RemoveOrphan(id: nat) returns (ok: bool)
      requires id in containers
      modifies this`containers, this`calls
      ensures calls > old(calls) && (ok <==> NoFault(fails, old(calls), calls))
      ensures containers == old(containers) || containers == old(containers) - {id}
           || containers == old(containers)[id := old(containers)[id].(running := false)]
      ensures ok ==> containers == old(containers) - {id}
      ensures var running := old(containers)[id].running;
              && calls <= old(calls) + (if running then 2 else 1)
              && (ok || id !in containers ==> calls == old(calls) + if running then 2 else 1)
    {
      hide NoFault;
      ghost var k := calls;
      if containers[id].running {
        ok := StopInstance(id);
        OneCall(fails, k, ok);
        if !ok {
          return;
        }
        assert containers - {id} == old(containers) - {id};
      }
      ghost var l := calls;
      ok := RemoveInstance(id);
      OneCall(fails, l, ok);
      NoCalls(fails, k);
      NoFaultJoin(fails, k, l, calls);
    }

    /** Stops and removes what nobody claims; `hurt` names the instances some orphan of which may be left. */
    method RemoveOrphans(orphans: set<nat>, ghost k0: nat) returns (ok: bool, ghost hurt: Failures)
      requires Valid() && orphans <= containers.Keys && k0 <= calls && NoFault(fails, k0, calls)
      modifies this`containers, this`calls
      ensures Valid() && Thinned(old(containers), containers, orphans)
      ensures calls >= old(calls) && Logged(hurt, fails, k0, calls) && (ok <==> hurt == map[])
      ensures forall id | id in containers && id in orphans :: containers[id].name in hurt
    {
      hide Thinned, NoFault, Logged;
      ok, hurt := true, map[];
      var todo := orphans;
      ThinnedNone(containers, orphans);
      NothingLogged(fails, k0, calls);
      while todo != {}
        invariant Valid() && todo <= orphans && todo <= containers.Keys
        invariant Thinned(old(containers), containers, orphans)
        invariant calls >= old(calls) && Logged(hurt, fails, k0, calls) && (ok <==> hurt == map[])
        invariant forall id | id in containers && id in orphans && id !in todo :: containers[id].name in hurt
        decreases |todo|
      {
        var id :| id in todo;
        todo := todo - {id};
        ghost var mid, k := containers, calls;
        var fine := RemoveOrphan(id);
        hurt := LoggedStep(hurt, fails, k0, k, calls, mid[id].name, fine);
        ok := ok && fine;
        ThinnedMore(old(containers), mid, containers, orphans, id);
      }
    }

    /** The runtime's List, every container once in no particular order. */
    method List() returns (listed: seq<(nat, Container)>)
      ensures ListsAll(listed, containers)
    {
      listed := [];
      var todo := containers.Keys;
      while todo != {}
        invariant todo <= containers.Keys
        invariant forall i | 0 <= i < |listed| ::
                    listed[i].0 in containers && listed[i].0 !in todo && listed[i].1 == containers[listed[i].0]
        invariant forall i, j | 0 <= i < j < |listed| :: listed[i].0 != listed[j].0
        invariant forall id | id in containers && id !in todo :: exists i | 0 <= i < |listed| :: listed[i].0 == id
        decreases |todo|
      {
        var id :| id in todo;
        todo := todo - {id};
        ghost var before := listed;
        listed := listed + [(id, containers[id])];
        assert listed[|before|].0 == id;
        assert forall i | 0 <= i < |before| :: listed[i] == before[i];
      }
    }

    /**
     One pass; `ok` when no runtime call failed, `listed` when there was a pass
     at all. A failed call hurts the one instance it was made for, and every
     other instance is stepped all the same.
     */
    method Reconcile() returns (ok: bool, listed: bool, ghost p: PassRecord, ghost hurt: Failures)
      requires Valid()
      modifies this`containers, this`nextId, this`clock, this`states, this`calls
      ensures Valid() && old(clock) <= clock && calls > old(calls)
      ensures p == PassRecord(desired, probeReady, old(containers), old(states), old(clock), old(nextId), p.byName,
                              containers, states, clock)
      ensures listed <==> !fails(old(calls))
      ensures ok <==> NoFault(fails, old(calls), calls)
      ensures !listed ==> containers == old(containers) && states == old(states)
      ensures listed ==> Logged(hurt, fails, old(calls), calls) && Guarded(p) && Pass(p, hurt.Keys)
    {
      hide *;
      ghost var c0, s0, t0, next0, k0 := containers, states, clock, nextId, calls;
      hurt := map[];
      listed := Call();
      OneCall(fails, k0, listed);
      if !listed {
        p := PassRecord(desired, probeReady, c0, s0, t0, next0, map[], containers, states, clock);
        return false, false, p, hurt;
      }
      var actual := List();
      NamesValid();
      var byName, orphans := MatchContainers(desired, actual, containers);
      OrphansListed(containers, byName, orphans);
      ok, hurt := RemoveOrphans(orphans, k0);
      GuardingStarts(desired, c0, s0, next0, byName, orphans, containers);
      ProgressStarts(desired, probeReady, c0, s0, t0, next0, byName, orphans, containers, clock, hurt.Keys);
      ghost var times;
      ok, hurt, times := ReconcileAll(byName, ok, hurt, k0, c0, s0, t0, next0);
      LoggedMeans(hurt, fails, k0, calls);
      p := PassRecord(desired, probeReady, c0, s0, t0, next0, byName, containers, states, clock);
      GuardingEnds(p);
      ProgressEnds(p, hurt.Keys, times);
      PruneState();
      p := p.(s1 := states);
    }

    lemma NamesValid()
      requires Valid()
      ensures forall n | n in desired :: desired[n].name == n
    {}

    method PruneState()
      requires Valid()
      modifies this`states
      ensures Valid() && states == map n | n in old(states) && n in desired :: old(states)[n]
    {
      states := map n | n in states && n in desired :: states[n];
    }

    method ReconcileAll(byName: map<string, nat>, clean: bool, ghost hurt0: Failures, ghost k0: nat,
                        ghost c0: Containers, ghost s0: States, ghost t0: nat, ghost next0: nat)
        returns (ok: bool, ghost hurt: Failures, ghost times: map<string, nat>)
      requires Valid() && nextId >= next0 && clock >= t0 && k0 <= calls
      requires Logged(hurt0, fails, k0, calls) && (clean <==> hurt0 == map[])
      requires Guarding(desired, c0, s0, next0, byName, containers, states, desired.Keys)
      requires Progress(desired, probeReady, c0, s0, t0, next0, byName, containers, states, clock, desired.Keys,
                        hurt0.Keys, map[])
      modifies this`containers, this`nextId, this`clock, this`states, this`calls
      ensures Valid() && clock >= t0 && clock >= old(clock) && calls >= old(calls)
      ensures Logged(hurt, fails, k0, calls) && (ok <==> hurt == map[])
      ensures Guarding(desired, c0, s0, next0, byName, containers, states, {})
      ensures Progress(desired, probeReady, c0, s0, t0, next0, byName, containers, states, clock, {}, hurt.Keys, times)
    {
      hide *;
      ok, hurt, times := clean, hurt0, map[];
      var todo := desired.Keys;
      while todo != {}
        invariant Valid() && nextId >= next0 && clock >= t0 && clock >= old(clock) && todo <= desired.Keys
        invariant calls >= old(calls) && Logged(hurt, fails, k0, calls) && (ok <==> hurt == map[])
        invariant Guarding(desired, c0, s0, next0, byName, containers, states, todo)
        invariant Progress(desired, probeReady, c0, s0, t0, next0, byName, containers, states, clock, todo, hurt.Keys,
                           times)
        decreases |todo|
      {
        var n :| n in todo;
        GuardingMatch(desired, c0, s0, next0, byName, containers, states, todo, n);
        ghost var c, s, mid, t1, k, h := containers, states, nextId, clock, calls, hurt;
        var m := MatchOf(containers, byName, n);
        var fine, t := ReconcileInstance(desired[n], m);
        hurt := LoggedStep(h, fails, k0, k, calls, n, fine);
        GuardingStep(desired, c0, s0, next0, byName, c, s, todo, n, mid, containers, states);
        ProgressStep(desired, probeReady, c0, s0, t0, next0, byName, c, s, t1, todo, h.Keys, times, n, mid, containers,
                     states, t, clock, fine, hurt.Keys);
        ok := ok && fine;
        times := times[n := t];
        todo := todo - {n};
      }
    }
  }

  lemma OrphansListed(cs: Containers, byName: map<string, nat>, orphans: set<nat>)
    requires forall id :: id in orphans <==> id in cs && !Matched(byName, cs[id].name, id)
    ensures orphans <= cs.Keys
  {}

  // ---------------------------------------------------------------- what a pass does

  /** Orphan removal: the rest stays as it is, and orphans at most stop or vanish. */
  ghost predicate Thinned(c0: Containers, c: Containers, orphans: set<nat>) {
    && (forall id | id in c :: id in c0 && c[id].name == c0[id].name)
    && (forall id | id in c0 && id !in orphans :: id in c && c[id] == c0[id])
  }

  lemma ThinnedNone(c0: Containers, orphans: set<nat>)
    ensures Thinned(c0, c0, orphans)
  {}

  lemma ThinnedMore(c0: Containers, c: Containers, c': Containers, orphans: set<nat>, id: nat)
    requires Thinned(c0, c, orphans) && id in orphans && id in c
    requires c' == c || c' == c - {id} || c' == c[id := c[id].(running := false)]
    ensures Thinned(c0, c', orphans)
  {}

  /** One pass: what it saw, from `t0` on, and what it left by `t1`. */
  datatype PassRecord = PassRecord(desired: Wants, ready: set<string>, c0: Containers, s0: States, t0: nat, next: nat,
                                   byName: map<string, nat>, c1: Containers, s1: States, t1: nat)

  /** What every pass keeps, failing calls or not. */
  ghost predicate Guarded(p: PassRecord) {
    && Matches(p.desired, p.c0, p.byName) && p.s1.Keys == p.desired.Keys
    && Spared(p.desired, p.c0, p.s0, p.byName, p.c1, {}) && Minted(p.desired, p.c0, p.s0, p.next, p.c1)
    && (forall n | n in p.desired :: Bookkept(p.desired[n], StateFor(p.s0, p.desired[n]), p.s1[n]))
  }

  predicate Bookkept(inst: Desired, before: InstState, after: InstState) {
    && after.uid == inst.uid && after.draining == Drains(inst, before)
    && (after.draining ==> after.phase == Phase.Draining || after.phase == Failed)
    && Tallies(before, after)
  }

  /** A pass that failed at most for the names in `hurt`. */
  ghost predicate Pass(p: PassRecord, hurt: set<string>) {
    && Matches(p.desired, p.c0, p.byName) && p.s1.Keys == p.desired.Keys
    && (forall n | n in p.desired :: p.desired[n].name == n)
    && (forall n | n !in p.desired && n !in hurt :: Of(p.c1, n) == map[])
    && (forall n | n in p.desired && n !in hurt ::
          exists t: nat :: p.t0 <= t <= p.t1
            && SteppedAt(p.desired[n], p.ready, p.c0, p.s0, p.next, p.byName, p.c1, p.s1[n], t))
  }

  ghost predicate SteppedAt(inst: Desired, probeReady: set<string>, c0: Containers, s0: States, next0: nat,
                            byName: map<string, nat>, c1: Containers, after: InstState, t: nat) {
    Stepped(inst, probeReady, MatchOf(c0, byName, inst.name), StateFor(s0, inst), t, next0, Of(c1, inst.name), after)
  }

  // ---------------------------------------------------------------- the loop over instances

  ghost predicate Guarding(desired: Wants, c0: Containers, s0: States, next0: nat, byName: map<string, nat>,
                           c: Containers, s: States, todo: set<string>) {
    && Matches(desired, c0, byName)
    && (forall n | n in desired :: desired[n].name == n)
    && Spared(desired, c0, s0, byName, c, todo)
    && Minted(desired, c0, s0, next0, c)
    && (forall n | n in desired && n in todo :: StateFor(s, desired[n]) == StateFor(s0, desired[n]))
    && (forall n | n in desired && n !in todo :: n in s && Bookkept(desired[n], StateFor(s0, desired[n]), s[n]))
  }

  /** Matched containers that run, drain or are still to be visited are as they were. */
  ghost predicate Spared(desired: Wants, c0: Containers, s0: States, byName: map<string, nat>, c: Containers,
                         todo: set<string>)
    requires Matches(desired, c0, byName)
  {
    forall n | n in byName && (n in todo || c0[byName[n]].running || Drains(desired[n], StateFor(s0, desired[n]))) ::
      byName[n] in c && c[byName[n]] == c0[byName[n]]
  }

  /** Containers that were not there before belong to desired instances that do not drain. */
  ghost predicate Minted(desired: Wants, c0: Containers, s0: States, next0: nat, c: Containers) {
    forall id | id in c && id !in c0 ::
      id >= next0 && Claimed(desired, c[id]) && !Drains(desired[c[id].name], StateFor(s0, desired[c[id].name]))
  }

  lemma GuardingStarts(desired: Wants, c0: Containers, s0: States, next0: nat, byName: map<string, nat>,
                       orphans: set<nat>, c: Containers)
    requires (forall n | n in desired :: desired[n].name == n) && Matches(desired, c0, byName)
    requires Thinned(c0, c, orphans)
    requires forall id :: id in orphans <==> id in c0 && !Matched(byName, c0[id].name, id)
    ensures Guarding(desired, c0, s0, next0, byName, c, s0, desired.Keys)
  {}

  lemma GuardingMatch(desired: Wants, c0: Containers, s0: States, next0: nat, byName: map<string, nat>,
                      c: Containers, s: States, todo: set<string>, n: string)
    requires Guarding(desired, c0, s0, next0, byName, c, s, todo) && n in todo && todo <= desired.Keys
    ensures MatchOf(c, byName, n) == MatchOf(c0, byName, n) && StateFor(s, desired[n]) == StateFor(s0, desired[n])
    ensures var m := MatchOf(c, byName, n); m.Some? ==> Pairs(c, m.value, n)
    ensures desired[n].name == n
  {}

  lemma SparedStep(desired: Wants, c0: Containers, s0: States, byName: map<string, nat>, c: Containers,
                   todo: set<string>,
                   n: string, c': Containers)
    requires Matches(desired, c0, byName) && Spared(desired, c0, s0, byName, c, todo) && n in todo && n in desired
    requires forall m | m != n :: Of(c', m) == Of(c, m)
    requires Drains(desired[n], StateFor(s0, desired[n])) || (n in byName && c0[byName[n]].running) ==> c' == c
    ensures Spared(desired, c0, s0, byName, c', todo - {n})
  {
    hide Of, Claims, Drains, StateFor;
    forall k | k in byName && k != n && byName[k] in c && c[byName[k]] == c0[byName[k]]
      ensures byName[k] in c' && c'[byName[k]] == c0[byName[k]]
    {
      assert c0[byName[k]].name == k;
      OfMember(c, k, byName[k]);
      OfMember(c', k, byName[k]);
    }
  }

  lemma MintedStep(desired: Wants, c0: Containers, s0: States, next0: nat, c: Containers, n: string, next: nat,
                   c': Containers)
    requires Minted(desired, c0, s0, next0, c) && n in desired && desired[n].name == n && next >= next0
    requires Drains(desired[n], StateFor(s0, desired[n])) ==> c' == c
    requires forall id | id in c' :: if id in c then c'[id] == c[id] else id >= next && Claims(desired[n], c'[id])
    ensures Minted(desired, c0, s0, next0, c')
  {
    hide Drains, StateFor;
  }

  lemma StatesFrame(desired: Wants, s: States, s': States, n: string)
    requires (forall k | k in desired :: desired[k].name == k) && n in s' && s' == s[n := s'[n]]
    ensures forall k | k in desired && k != n :: StateFor(s', desired[k]) == StateFor(s, desired[k])
  {}

  lemma MatchExists(desired: Wants, cs: Containers, byName: map<string, nat>, n: string)
    requires Matches(desired, cs, byName)
    ensures n in byName ==>
        n in desired && byName[n] in cs && MatchOf(cs, byName, n) == Some((byName[n], cs[byName[n]]))
  {}

  lemma GuardingStep(desired: Wants, c0: Containers, s0: States, next0: nat, byName: map<string, nat>,
                     c: Containers, s: States, todo: set<string>, n: string, next: nat, c': Containers, s': States)
    requires Guarding(desired, c0, s0, next0, byName, c, s, todo) && n in todo && todo <= desired.Keys && next >= next0
    requires forall m | m != n :: Of(c', m) == Of(c, m)
    requires n in s' && s' == s[n := s'[n]]
    requires Careful(desired[n], MatchOf(c, byName, n), StateFor(s, desired[n]), next, c, c', s'[n])
    ensures Guarding(desired, c0, s0, next0, byName, c', s', todo - {n})
  {
    hide Of, Bookkept, Matches, Spared, Minted, StateFor, Drains, Claims, MatchOf;
    GuardingMatch(desired, c0, s0, next0, byName, c, s, todo, n);
    StatesFrame(desired, s, s', n);
    MatchExists(desired, c0, byName, n);
    SparedStep(desired, c0, s0, byName, c, todo, n, c');
    MintedStep(desired, c0, s0, next0, c, n, next, c');
  }

  lemma GuardingEnds(p: PassRecord)
    requires Guarding(p.desired, p.c0, p.s0, p.next, p.byName, p.c1, p.s1, {})
    ensures Guarded(p.(s1 := map n | n in p.s1 && n in p.desired :: p.s1[n]))
  {
    hide Matches, Drains, Claimed, Bookkept;
  }

  ghost predicate Progress(desired: Wants, probeReady: set<string>, c0: Containers, s0: States, t0: nat, next0: nat,
                           byName: map<string, nat>, c: Containers, s: States, t1: nat, todo: set<string>,
                           hurt: set<string>, times: map<string, nat>) {
    && (forall n | n in desired :: desired[n].name == n)
    && (forall n | n in desired && n !in todo :: n in s)
    && (forall n | n !in hurt && (n !in desired || n in todo) :: Of(c, n) == Kept(MatchOf(c0, byName, n)))
    && (forall n | n in desired && n !in todo && n !in hurt :: n in times && t0 <= times[n] <= t1
          && SteppedAt(desired[n], probeReady, c0, s0, next0, byName, c, s[n], times[n]))
  }

  lemma ProgressStarts(desired: Wants, probeReady: set<string>, c0: Containers, s0: States, t0: nat, next0: nat,
                       byName: map<string, nat>, orphans: set<nat>, c: Containers, t1: nat, hurt: set<string>)
    requires (forall n | n in desired :: desired[n].name == n) && Matches(desired, c0, byName)
    requires Thinned(c0, c, orphans)
    requires forall id :: id in orphans <==> id in c0 && !Matched(byName, c0[id].name, id)
    requires forall id | id in c && id in orphans :: c[id].name in hurt
    ensures Progress(desired, probeReady, c0, s0, t0, next0, byName, c, s0, t1, desired.Keys, hurt, map[])
  {
    hide Stepped;
    forall n | n !in hurt ensures Of(c, n) == Kept(MatchOf(c0, byName, n)) {
    }
  }

  lemma SteppedEarlier(inst: Desired, probeReady: set<string>, m: Match, before: InstState, t: nat, next0: nat,
                       next: nat,
                       cs: Containers, after: InstState)
    requires Stepped(inst, probeReady, m, before, t, next, cs, after) && next0 <= next
    ensures Stepped(inst, probeReady, m, before, t, next0, cs, after)
  {
    hide Observed, Adopted, Crashed, Claims, RunningPhase;
  }

  lemma ProgressStep(desired: Wants, probeReady: set<string>, c0: Containers, s0: States, t0: nat, next0: nat,
                     byName: map<string, nat>, c: Containers, s: States, t1: nat, todo: set<string>,
                     hurt: set<string>, times: map<string, nat>,
                     n: string, next: nat, c': Containers, s': States, t: nat, t2: nat, fine: bool, hurt': set<string>)
    requires Progress(desired, probeReady, c0, s0, t0, next0, byName, c, s, t1, todo, hurt, times)
    requires n in todo && n in desired && next >= next0 && t0 <= t1 <= t <= t2
    requires hurt <= hurt' && (!fine ==> n in hurt')
    requires forall m | m != n :: Of(c', m) == Of(c, m)
    requires n in s' && s' == s[n := s'[n]]
    requires fine && Of(c, n) == Kept(MatchOf(c0, byName, n)) ==>
        Stepped(desired[n], probeReady, MatchOf(c0, byName, n), StateFor(s0, desired[n]), t, next, Of(c', n), s'[n])
    ensures Progress(desired, probeReady, c0, s0, t0, next0, byName, c', s', t2, todo - {n}, hurt', times[n := t])
  {
    hide Of, Stepped, StateFor, MatchOf, Kept;
    if n !in hurt' {
      SteppedEarlier(desired[n], probeReady, MatchOf(c0, byName, n), StateFor(s0, desired[n]), t, next0, next,
                     Of(c', n), s'[n]);
    }
  }

  lemma NoMatch(desired: Wants, cs: Containers, byName: map<string, nat>, n: string)
    requires Matches(desired, cs, byName) && n !in desired
    ensures Kept(MatchOf(cs, byName, n)) == map[]
  {}

  lemma ProgressEnds(p: PassRecord, hurt: set<string>, times: map<string, nat>)
    requires Matches(p.desired, p.c0, p.byName)
    requires Progress(p.desired, p.ready, p.c0, p.s0, p.t0, p.next, p.byName, p.c1, p.s1, p.t1, {}, hurt, times)
    ensures Pass(p.(s1 := map n | n in p.s1 && n in p.desired :: p.s1[n]), hurt)
  {
    hide Stepped, Of, StateFor, MatchOf, Kept;
    var s1 := map n | n in p.s1 && n in p.desired :: p.s1[n];
    forall n | n in p.desired && n !in hurt
      ensures exists t: nat :: p.t0 <= t <= p.t1
                && SteppedAt(p.desired[n], p.ready, p.c0, p.s0, p.next, p.byName, p.c1, s1[n], t)
    {
      assert SteppedAt(p.desired[n], p.ready, p.c0, p.s0, p.next, p.byName, p.c1, s1[n], times[n]);
    }
    forall n | n !in p.desired ensures Kept(MatchOf(p.c0, p.byName, n)) == map[] {
      NoMatch(p.desired, p.c0, p.byName, n);
    }
  }

  // ---------------------------------------------------------------- convergence

  /** The name's containers are claimed by its desired instance, and there is at most one. */
  ghost predicate Tidy(desired: Wants, cs: Containers, n: string) {
    && (forall id | id in cs && cs[id].name == n :: Claimed(desired, cs[id]))
    && (forall i, j | i in cs && j in cs && cs[i].name == n && cs[j].name == n :: i == j)
  }

  lemma SteppedShape(inst: Desired, probeReady: set<string>, m: Match, before: InstState, t: nat, next: nat,
                     cs: Containers, after: InstState)
    requires Stepped(inst, probeReady, m, before, t, next, cs, after) && (m.Some? ==> Claims(inst, m.value.1))
    ensures forall id | id in cs :: Claims(inst, cs[id])
    ensures forall i, j | i in cs && j in cs :: i == j
    ensures Drains(inst, before) || (m.Some? && m.value.1.running) ==> cs == Kept(m)
  {}

  /** The instance's own step, if nothing failed for it. */
  lemma StepOf(p: PassRecord, hurt: set<string>, n: string) returns (t: nat)
    requires Pass(p, hurt) && n in p.desired && n !in hurt
    ensures p.desired[n].name == n && n in p.s1 && p.t0 <= t <= p.t1
    ensures Stepped(p.desired[n], p.ready, MatchOf(p.c0, p.byName, n), StateFor(p.s0, p.desired[n]), t, p.next,
                    Of(p.c1, n), p.s1[n])
    ensures var m := MatchOf(p.c0, p.byName, n); m.Some? ==> Claims(p.desired[n], m.value.1) && Pairs(p.c0, m.value, n)
  {
    hide Stepped;
    t :| p.t0 <= t <= p.t1 && SteppedAt(p.desired[n], p.ready, p.c0, p.s0, p.next, p.byName, p.c1, p.s1[n], t);
  }

  lemma OfTidy(desired: Wants, cs: Containers, n: string)
    requires forall id | id in Of(cs, n) :: Claimed(desired, Of(cs, n)[id])
    requires forall i, j | i in Of(cs, n) && j in Of(cs, n) :: i == j
    ensures Tidy(desired, cs, n)
  {
    hide Of, Claimed;
    forall id ensures id in Of(cs, n) <==> id in cs && cs[id].name == n
      ensures id in Of(cs, n) ==> Of(cs, n)[id] == cs[id]
    {
      OfMember(cs, n, id);
    }
  }

  /** A pass tidies every name nothing failed for, and touches no matched container that runs or drains. */
  lemma PassTidies(p: PassRecord, hurt: set<string>, n: string)
    requires Pass(p, hurt) && n !in hurt
    ensures Tidy(p.desired, p.c1, n)
    ensures n in p.byName ==> n in p.desired && p.byName[n] in p.c0
    ensures n in p.byName && (p.c0[p.byName[n]].running || Drains(p.desired[n], StateFor(p.s0, p.desired[n]))) ==>
              p.byName[n] in p.c1 && p.c1[p.byName[n]] == p.c0[p.byName[n]]
  {
    hide Stepped, Drains, StateFor, Tidy;
    if n in p.desired {
      var m := MatchOf(p.c0, p.byName, n);
      var t := StepOf(p, hurt, n);
      SteppedShape(p.desired[n], p.ready, m, StateFor(p.s0, p.desired[n]), t, p.next, Of(p.c1, n), p.s1[n]);
      if n in p.byName {
        assert p.byName[n] in Kept(m);
        OfMember(p.c1, n, p.byName[n]);
      }
    }
    OfTidy(p.desired, p.c1, n);
  }

  /** Exactly one container of the name exists, and it runs. */
  ghost predicate Runs(cs: Containers, n: string) {
    exists id :: id in cs && cs[id].name == n && cs[id].running && forall j | j in cs && cs[j].name == n :: j == id
  }

  /** The name is where it should be: tidy, and running if it is desired and does not drain. */
  ghost predicate Converged(desired: Wants, cs: Containers, s: States, n: string) {
    && Tidy(desired, cs, n)
    && (n in desired && !Drains(desired[n], StateFor(s, desired[n])) ==> Runs(cs, n))
  }

  /** The match of a tidy name is its container. */
  lemma TidyMatch(desired: Wants, cs: Containers, byName: map<string, nat>, n: string)
    requires Tidy(desired, cs, n) && Matches(desired, cs, byName)
    ensures Of(cs, n) == Kept(MatchOf(cs, byName, n))
  {
    var m := MatchOf(cs, byName, n);
    forall id | id in cs && cs[id].name == n ensures m == Some((id, cs[id])) {
      assert cs[id].name in byName;
    }
  }

  lemma SteppedState(inst: Desired, probeReady: set<string>, m: Match, before: InstState, t: nat, next: nat,
                     cs: Containers, after: InstState)
    requires Stepped(inst, probeReady, m, before, t, next, cs, after) && before.uid == inst.uid
    ensures after.uid == inst.uid && after.draining == Drains(inst, before)
    ensures !after.draining ==> forall id | id in cs :: cs[id].running || after.awaiting
  {}

  /** With its gate open, a crash already noticed, an instance that does not drain ends the step running. */
  lemma OpenGateRuns(inst: Desired, probeReady: set<string>, m: Match, before: InstState, t: nat, next: nat,
                     cs: Containers, after: InstState)
    requires Stepped(inst, probeReady, m, before, t, next, cs, after) && !Drains(inst, before)
    requires before.nextTry <= t && (m.Some? ==> m.value.1.running || before.awaiting)
    ensures exists id :: id in cs && cs.Keys == {id} && cs[id].running
  {
    if m.Some? && m.value.1.running {
      assert cs.Keys == {m.value.0};
    } else {
      assert Started(inst, probeReady, next, before.(draining := false), cs, after);
      assert after.container.value in cs;
    }
  }

  lemma OfRuns(cs: Containers, n: string)
    requires exists id :: id in Of(cs, n) && Of(cs, n).Keys == {id} && Of(cs, n)[id].running
    ensures Runs(cs, n)
  {
    var id :| id in Of(cs, n) && Of(cs, n).Keys == {id} && Of(cs, n)[id].running;
    forall j | j in cs && cs[j].name == n ensures j == id {
      assert j in Of(cs, n);
    }
  }

  /** What a pass settles for an instance nothing failed for: its UID and drain flag, and that a crash is noticed. */
  lemma FirstPassNotices(p: PassRecord, hurt: set<string>, n: string)
    requires Pass(p, hurt) && n in p.desired && n !in hurt
    ensures n in p.s1 && StateFor(p.s1, p.desired[n]) == p.s1[n]
    ensures p.s1[n].draining == Drains(p.desired[n], StateFor(p.s0, p.desired[n]))
    ensures Drains(p.desired[n], p.s1[n]) == p.s1[n].draining
    ensures !p.s1[n].draining ==>
        forall id | id in p.c1 && p.c1[id].name == n :: p.c1[id].running || p.s1[n].awaiting
  {
    hide Stepped, Of;
    var t := StepOf(p, hurt, n);
    SteppedState(p.desired[n], p.ready, MatchOf(p.c0, p.byName, n), StateFor(p.s0, p.desired[n]), t, p.next,
                 Of(p.c1, n), p.s1[n]);
    forall id | id in p.c1 && p.c1[id].name == n ensures id in Of(p.c1, n) && Of(p.c1, n)[id] == p.c1[id] {
      OfMember(p.c1, n, id);
    }
  }

  /**
   Two passes converge every instance nothing failed for, whatever fails for
   others, if its container does not crash in between and the second pass
   starts once its backoff gate is open.
   */
  lemma TwoPassesConverge(p: PassRecord, hurt: set<string>, q: PassRecord, hurt': set<string>, n: string)
    requires Pass(p, hurt) && Pass(q, hurt') && n !in hurt && n !in hurt'
    requires q.desired == p.desired && q.s0 == p.s1 && Of(q.c0, n) == Of(p.c1, n)
    requires n in p.s1 ==> p.s1[n].nextTry <= q.t0
    ensures Converged(q.desired, q.c1, q.s1, n)
  {
    hide Pass, Stepped, Tidy, Of, Drains, StateFor, Runs;
    PassTidies(q, hurt', n);
    if n in q.desired && !Drains(q.desired[n], StateFor(q.s1, q.desired[n])) {
      FirstPassNotices(p, hurt, n);
      FirstPassNotices(q, hurt', n);
      var t := StepOf(q, hurt', n);
      var m := MatchOf(q.c0, q.byName, n);
      if m.Some? {
        OfMember(q.c0, n, m.value.0);
        OfMember(p.c1, n, m.value.0);
      }
      OpenGateRuns(q.desired[n], q.ready, m, p.s1[n], t, q.next, Of(q.c1, n), q.s1[n]);
      OfRuns(q.c1, n);
    }
  }

  /** A converged name is a fixpoint: a further pass starts, stops and removes nothing of it. */
  lemma ConvergedIsFixpoint(p: PassRecord, hurt: set<string>, n: string)
    requires Converged(p.desired, p.c0, p.s0, n) && Pass(p, hurt) && n !in hurt
    ensures Of(p.c1, n) == Of(p.c0, n) && Converged(p.desired, p.c1, p.s1, n)
  {
    QuietName(p, hurt, n);
    RunsOf(p.c0, p.c1, n);
    PassTidies(p, hurt, n);
    hide Pass, Tidy, Runs, StateFor, Of;
    if n in p.desired {
      FirstPassNotices(p, hurt, n);
    }
  }

  lemma RunsOf(c0: Containers, c1: Containers, n: string)
    requires Of(c1, n) == Of(c0, n)
    ensures Runs(c0, n) ==> Runs(c1, n)
  {
    if Runs(c0, n) {
      var id :| id in c0 && c0[id].name == n && c0[id].running && forall j | j in c0 && c0[j].name == n :: j == id;
      assert id in Of(c0, n);
      forall j | j in c1 && c1[j].name == n ensures j == id {
        assert j in Of(c1, n);
      }
    }
  }

  lemma QuietName(p: PassRecord, hurt: set<string>, n: string)
    requires Converged(p.desired, p.c0, p.s0, n) && Pass(p, hurt) && n !in hurt
    ensures Of(p.c1, n) == Of(p.c0, n)
  {
    hide Stepped, StateFor, Drains;
    TidyMatch(p.desired, p.c0, p.byName, n);
    if n in p.desired {
      var t := StepOf(p, hurt, n);
      SteppedShape(p.desired[n], p.ready, MatchOf(p.c0, p.byName, n), StateFor(p.s0, p.desired[n]), t, p.next,
                   Of(p.c1, n), p.s1[n]);
      if !Drains(p.desired[n], StateFor(p.s0, p.desired[n])) {
        var id :| id in p.c0 && p.c0[id].name == n && p.c0[id].running;
        assert id in Of(p.c0, n);
      }
    }
  }

  // ---------------------------------------------------------------- over an agent's life

  /** The passes of one agent life, faults included; between passes containers may change in any way. */
  ghost predicate Life(passes: seq<PassRecord>) {
    && (forall i | 0 <= i < |passes| :: Guarded(passes[i]))
    && (forall i | 0 < i < |passes| :: passes[i].s0 == passes[i - 1].s1)
    && (forall i | 0 <= i < |passes| :: forall n | n in passes[i].desired :: passes[i].desired[n].name == n)
  }

  /** The instance is in every snapshot from pass `i` through pass `j`. */
  ghost predicate Stays(passes: seq<PassRecord>, n: string, uid: string, i: nat, j: nat)
    requires j < |passes|
  {
    forall k | i <= k <= j :: n in passes[k].desired && passes[k].desired[n].uid == uid
  }

  lemma BookkeepingOf(p: PassRecord, n: string)
    requires Guarded(p) && n in p.desired
    ensures n in p.s1 && Bookkept(p.desired[n], StateFor(p.s0, p.desired[n]), p.s1[n])
  {}

  /**
   Once an agent has seen a UID drain, and while it stays in the snapshot, no
   pass runs it again or touches its container, and it reports only DRAINING or FAILED.
   */
  lemma {:induction false} DrainSticks(passes: seq<PassRecord>, n: string, uid: string, i: nat, j: nat)
    requires Life(passes) && i <= j < |passes| && Stays(passes, n, uid, i, j)
    requires Drains(passes[i].desired[n], StateFor(passes[i].s0, passes[i].desired[n]))
    ensures var p := passes[j];
            && Drains(p.desired[n], StateFor(p.s0, p.desired[n]))
            && n in p.s1 && p.s1[n].draining && (p.s1[n].phase == Phase.Draining || p.s1[n].phase == Failed)
            && (forall id | id in p.c1 && id !in p.c0 :: p.c1[id].name != n)
            && (n in p.byName ==> p.byName[n] in p.c0 && p.byName[n] in p.c1 && p.c1[p.byName[n]] == p.c0[p.byName[n]])
    decreases j
  {
    hide Guarded, Tallies;
    var p := passes[j];
    if i < j {
      DrainSticks(passes, n, uid, i, j - 1);
      assert p.s0 == passes[j - 1].s1;
      BookkeepingOf(passes[j - 1], n);
    }
    DrainedPass(p, n);
  }

  lemma DrainedPass(p: PassRecord, n: string)
    requires Guarded(p) && n in p.desired && Drains(p.desired[n], StateFor(p.s0, p.desired[n]))
    ensures n in p.s1 && p.s1[n].draining && (p.s1[n].phase == Phase.Draining || p.s1[n].phase == Failed)
    ensures forall id | id in p.c1 && id !in p.c0 :: p.c1[id].name != n
    ensures n in p.byName ==> p.byName[n] in p.c0 && p.byName[n] in p.c1 && p.c1[p.byName[n]] == p.c0[p.byName[n]]
  {
    assert Bookkept(p.desired[n], StateFor(p.s0, p.desired[n]), p.s1[n]);
  }

  ghost predicate Counted(s: States) {
    forall n | n in s :: s[n].backoff == Backoff(s[n].strikes)
  }

  /** An instance's backoff counts the strikes of its UID over the agent's whole life, starting from none. */
  lemma {:induction false} BackoffCountsStrikes(passes: seq<PassRecord>, j: nat)
    requires Life(passes) && j < |passes| && Counted(passes[0].s0)
    ensures Counted(passes[j].s1)
  {
    hide Guarded;
    if j > 0 {
      BackoffCountsStrikes(passes, j - 1);
      assert passes[j].s0 == passes[j - 1].s1;
    }
    CountedPass(passes[j]);
  }

  lemma CountedPass(p: PassRecord)
    requires Guarded(p) && Counted(p.s0) && forall n | n in p.desired :: p.desired[n].name == n
    ensures Counted(p.s1)
  {
    forall n | n in p.s1 ensures p.s1[n].backoff == Backoff(p.s1[n].strikes) {
      BookkeepingOf(p, n);
      StrikeCounts(p.desired[n], p.s0, p.s1[n]);
    }
  }

  lemma StrikeCounts(inst: Desired, s0: States, after: InstState)
    requires Counted(s0) && Tallies(StateFor(s0, inst), after)
    ensures after.backoff == Backoff(after.strikes)
  {}

  /** Nothing resets the count while the UID stays in the snapshot, however long it ran well in between. */
  lemma {:induction false} StrikesStay(passes: seq<PassRecord>, n: string, uid: string, i: nat, j: nat)
    requires Life(passes) && i <= j < |passes| && Stays(passes, n, uid, i, j)
    ensures n in passes[i].s1 && n in passes[j].s1 && passes[j].s1[n].uid == uid
    ensures passes[i].s1[n].strikes <= passes[j].s1[n].strikes
    decreases j
  {
    hide Guarded, Drains;
    BookkeepingOf(passes[j], n);
    if i < j {
      StrikesStay(passes, n, uid, i, j - 1);
      assert passes[j].s0 == passes[j - 1].s1;
    }
  }
}
