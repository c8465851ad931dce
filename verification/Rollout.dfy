/**
 The surge-first rollout of one workload.

 One pass of the workload controller classifies the listed instances, clears
 what never served, and takes at most one rollout action. `Choreography` says
 at the level of name sets which instances a pass removes, drains and creates;
 the controller's methods are proved against it and the guarantees of the
 choreography are proved from it.
 */
module Rollout {
  import opened Store
  import opened Instances
  import opened Order

  datatype Role = Fresh | Retiring | Doomed | OnDrain

  /** What a pass steers one workload to. */
  datatype Target = Target(workload: string, replicas: nat, hash: string, drainSeconds: int, drainingNodes: set<string>)

  function RoleOf(i: Instance, tg: Target): Role {
    if i.phase == Draining then OnDrain
    else if i.hash == tg.hash && i.node !in tg.drainingNodes then Fresh
    else if i.phase == Ready then Retiring
    else Doomed
  }

  datatype Groups = Groups(current: seq<Listed>, retiring: seq<Listed>, doomed: seq<Listed>, draining: seq<Listed>)

  // ---------------------------------------------------------------- newest first

  /** The order victims are taken in: by age, ties by revision and at last by name. */
  predicate Newer(x: Listed, y: Listed) {
    || x.value.created > y.value.created
    || (x.value.created == y.value.created
        && (x.rev > y.rev || (x.rev == y.rev && Less(y.value.name, x.value.name))))
  }

  lemma NewerStrict()
    ensures Strict(Newer)
  {
    forall x: Listed ensures !Newer(x, x) {
      LessTotal(x.value.name, x.value.name);
    }
    forall x: Listed, y: Listed, z: Listed | Newer(x, y) && Newer(y, z) ensures Newer(x, z) {
      if Less(y.value.name, x.value.name) && Less(z.value.name, y.value.name) {
        LessTransitive(z.value.name, y.value.name, x.value.name);
      }
    }
    forall x: Listed, y: Listed, z: Listed | Newer(x, z) ensures Newer(x, y) || Newer(y, z) {
      LessTotal(x.value.name, y.value.name);
      LessTotal(y.value.name, z.value.name);
      if Less(x.value.name, y.value.name) && Less(z.value.name, x.value.name) {
        LessTransitive(z.value.name, x.value.name, y.value.name);
      }
    }
  }

  // ---------------------------------------------------------------- one pass, by name sets

  function InRole(objs: Objs, tg: Target, role: Role): set<string> {
    set n | n in objs && RoleOf(objs[n].value, tg) == role
  }

  function ReadyNames(objs: Objs): set<string> {
    set n | n in objs && objs[n].value.phase == Ready
  }

  /** `chosen` are the `k` newest of `from`. */
  ghost predicate Newest(objs: Objs, chosen: set<string>, from: set<string>, k: nat) {
    && chosen <= from <= objs.Keys && |chosen| == k
    && forall a, b | a in chosen && b in from - chosen :: !Newer(objs[b], objs[a])
  }

  /** An unbound fresh instance the scheduler already refused to place. */
  predicate Blocked(i: Instance) {
    i.node == "" && (i.message == MSG_NO_CAPACITY || PINNED_PREFIX <= i.message)
  }

  /** READY victims go DRAINING; anything else was never in service and is deleted outright. */
  function Drained(objs: Objs, victims: set<string>): set<string> {
    victims * ReadyNames(objs)
  }

  function Removed(objs: Objs, tg: Target, expired: set<string>, victims: set<string>): set<string> {
    InRole(objs, tg, Doomed) + expired + (victims - ReadyNames(objs))
  }

  /** Which instances a pass retires and how many it creates. */
  ghost predicate Choreography(tg: Target, objs: Objs, victims: set<string>, born: set<string>) {
    var current, retiring, draining := InRole(objs, tg, Fresh), InRole(objs, tg, Retiring), InRole(objs, tg, OnDrain);
    var serving := |current| + |retiring|;
    if |current| > tg.replicas then
      // scale-down: the surplus newest fresh instances go at once
      Newest(objs, victims, current, |current| - tg.replicas) && born == {}
    else if serving < tg.replicas then
      // base capacity comes back in bulk
      victims == {} && |born| == tg.replicas - serving
    else if retiring == {} || draining != {} then
      victims == {} && born == {}
    else if serving == tg.replicas && AllReady(tg, objs) then
      victims == {} && |born| == 1                           // the surge
    else if serving > tg.replicas && (Covered(tg, objs) || SurgeBlocked(tg, objs)) then
      Newest(objs, victims, retiring, 1) && born == {}       // the next victim
    else
      victims == {} && born == {}
  }

  /** How many instances the choreography creates. */
  ghost function BirthsDue(tg: Target, objs: Objs): nat {
    var current, retiring := InRole(objs, tg, Fresh), InRole(objs, tg, Retiring);
    var serving := |current| + |retiring|;
    if |current| > tg.replicas then 0
    else if serving < tg.replicas then tg.replicas - serving
    else if retiring != {} && InRole(objs, tg, OnDrain) == {} && serving == tg.replicas && AllReady(tg, objs) then 1
    else 0
  }

  predicate AllReady(tg: Target, objs: Objs) {
    InRole(objs, tg, Fresh) <= ReadyNames(objs)
  }

  /** Enough fresh instances are READY to lose one retiring instance. */
  predicate Covered(tg: Target, objs: Objs) {
    var current := InRole(objs, tg, Fresh);
    |current * ReadyNames(objs)| >= if tg.replicas < |current| then tg.replicas else |current|
  }

  predicate SurgeBlocked(tg: Target, objs: Objs) {
    exists n | n in InRole(objs, tg, Fresh) :: Blocked(objs[n].value)
  }

  predicate ScaleDown(tg: Target, objs: Objs) {
    |InRole(objs, tg, Fresh)| > tg.replicas
  }

  predicate Newborn(tg: Target, i: Instance) {
    i.workload == tg.workload && i.hash == tg.hash && i.node == "" && i.phase == Pending
    && i.drainSeconds == tg.drainSeconds
  }

  /** `after` is `objs` with exactly these removals, drains and births. */
  ghost predicate Effect(tg: Target, objs: Objs, removed: set<string>, drained: set<string>, born: set<string>,
                         after: Objs) {
    && removed + drained <= objs.Keys && removed !! drained && born !! (objs.Keys - removed)
    && after.Keys == objs.Keys - removed + born
    && (forall n | n in objs.Keys - removed - drained :: after[n] == objs[n])
    && (forall n | n in drained ::
          after[n].value == objs[n].value.(phase := Draining, message := after[n].value.message))
    && (forall n | n in born :: after[n].value.name == n && Newborn(tg, after[n].value))
  }

  /** One pass of the workload controller with every write succeeding. */
  ghost predicate Pass(tg: Target, objs: Objs, expired: set<string>, victims: set<string>, born: set<string>,
                       after: Objs) {
    && expired <= InRole(objs, tg, OnDrain) && Choreography(tg, objs, victims, born)
    && Effect(tg, objs, Removed(objs, tg, expired, victims), Drained(objs, victims), born, after)
  }

  lemma EffectDelete(tg: Target, objs: Objs, removed: set<string>, drained: set<string>, born: set<string>, mid: Objs,
                     n: string)
    requires Effect(tg, objs, removed, drained, born, mid) && n in objs.Keys - removed - drained && n !in born
    ensures Effect(tg, objs, removed + {n}, drained, born, mid - {n})
  {}

  lemma EffectDrain(tg: Target, objs: Objs, removed: set<string>, drained: set<string>, born: set<string>, mid: Objs,
                    n: string, v: Listed)
    requires Effect(tg, objs, removed, drained, born, mid) && n in objs.Keys - removed - drained && n !in born
    requires v.value == objs[n].value.(phase := Draining, message := v.value.message)
    ensures Effect(tg, objs, removed, drained + {n}, born, mid[n := v])
  {}

  lemma EffectBirth(tg: Target, objs: Objs, removed: set<string>, drained: set<string>, born: set<string>, mid: Objs,
                    n: string, v: Listed)
    requires Effect(tg, objs, removed, drained, born, mid) && n !in mid
    requires v.value.name == n && Newborn(tg, v.value)
    ensures Effect(tg, objs, removed, drained, born + {n}, mid[n := v])
  {}

  // ---------------------------------------------------------------- what a pass guarantees

  lemma EffectRole(tg: Target, objs: Objs, removed: set<string>, drained: set<string>, born: set<string>, after: Objs,
                   role: Role)
    requires Effect(tg, objs, removed, drained, born, after) && "" !in tg.drainingNodes
    ensures InRole(after, tg, role) == InRole(objs, tg, role) - removed - drained
                                       + (if role == Fresh then born else if role == OnDrain then drained else {})
  {
    forall n | n in after
      ensures n in born ==> RoleOf(after[n].value, tg) == Fresh
      ensures n in drained ==> RoleOf(after[n].value, tg) == OnDrain
      ensures n !in born && n !in drained ==> n in objs.Keys - removed - drained && after[n] == objs[n]
    {}
  }

  lemma EffectReady(tg: Target, objs: Objs, removed: set<string>, drained: set<string>, born: set<string>, after: Objs)
    requires Effect(tg, objs, removed, drained, born, after)
    ensures ReadyNames(after) == ReadyNames(objs) - removed - drained
  {
    forall n | n in after
      ensures n in born || n in drained ==> after[n].value.phase != Ready
      ensures n !in born && n !in drained ==> n in objs.Keys - removed - drained && after[n] == objs[n]
    {}
  }

  /** Only fresh and retiring instances are ever picked as victims. */
  lemma VictimsServe(tg: Target, objs: Objs, victims: set<string>, born: set<string>)
    requires Choreography(tg, objs, victims, born)
    ensures victims <= InRole(objs, tg, Fresh) || victims <= InRole(objs, tg, Retiring)
  {}

  lemma RolesDisjoint(tg: Target, objs: Objs)
    ensures InRole(objs, tg, Fresh) !! InRole(objs, tg, Retiring)
            !! InRole(objs, tg, Doomed) !! InRole(objs, tg, OnDrain)
    ensures ReadyNames(objs) !! InRole(objs, tg, Doomed) !! InRole(objs, tg, OnDrain)
    ensures InRole(objs, tg, Retiring) <= ReadyNames(objs) <= InRole(objs, tg, Fresh) + InRole(objs, tg, Retiring)
  {}

  lemma SetAlgebra(f: set<string>, r: set<string>, x: set<string>, d: set<string>, ready: set<string>,
                   expired: set<string>, victims: set<string>, removed: set<string>, drained: set<string>)
    requires f !! r !! x !! d && ready !! x !! d && expired <= d && (victims <= f || victims <= r)
    requires drained == victims * ready && removed == x + expired + (victims - ready)
    ensures f - removed - drained == f - victims
    ensures r - removed - drained == r - victims
    ensures x - removed - drained == {}
    ensures d - removed - drained == d - expired
    ensures ready - removed - drained == ready - victims
  {}

  /** How the groups move: an unbound newborn is fresh because "" names no node. */
  lemma PassSets(tg: Target, objs: Objs, expired: set<string>, victims: set<string>, born: set<string>, after: Objs)
    requires Effect(tg, objs, Removed(objs, tg, expired, victims), Drained(objs, victims), born, after)
    requires "" !in tg.drainingNodes && expired <= InRole(objs, tg, OnDrain)
    requires victims <= InRole(objs, tg, Fresh) || victims <= InRole(objs, tg, Retiring)
    ensures InRole(after, tg, Fresh) == InRole(objs, tg, Fresh) - victims + born
    ensures InRole(after, tg, Retiring) == InRole(objs, tg, Retiring) - victims
    ensures InRole(after, tg, Doomed) == {}
    ensures InRole(after, tg, OnDrain) == InRole(objs, tg, OnDrain) - expired + Drained(objs, victims)
    ensures ReadyNames(after) == ReadyNames(objs) - victims
  {
    var removed, drained := Removed(objs, tg, expired, victims), Drained(objs, victims);
    RolesDisjoint(tg, objs);
    SetAlgebra(InRole(objs, tg, Fresh), InRole(objs, tg, Retiring), InRole(objs, tg, Doomed), InRole(objs, tg, OnDrain),
               ReadyNames(objs), expired, victims, removed, drained);
    EffectRole(tg, objs, removed, drained, born, after, Fresh);
    EffectRole(tg, objs, removed, drained, born, after, Retiring);
    EffectRole(tg, objs, removed, drained, born, after, Doomed);
    EffectRole(tg, objs, removed, drained, born, after, OnDrain);
    EffectReady(tg, objs, removed, drained, born, after);
  }

  /** Sizes of the groups: fresh, retiring, draining, doomed, and READY instances in all. */
  datatype Tally = Tally(f: nat, r: nat, d: nat, x: nat, ready: nat)

  function TallyOf(objs: Objs, tg: Target): Tally {
    Tally(|InRole(objs, tg, Fresh)|, |InRole(objs, tg, Retiring)|, |InRole(objs, tg, OnDrain)|,
          |InRole(objs, tg, Doomed)|,
          |ReadyNames(objs)|)
  }

  lemma MinusSize(a: set<string>, b: set<string>)
    ensures |a - b| == |a| - |b * a|
  {
    assert a == (a - b) + (b * a);
  }

  /** Sizes of the groups once `victims` left, `expired` went and `born` came. */
  lemma GroupSizes(f: set<string>, r: set<string>, d: set<string>, ready: set<string>,
                   expired: set<string>, victims: set<string>, born: set<string>)
    requires born !! (f - victims) && expired <= d && ready !! d
    ensures |f - victims + born| == |f| - |victims * f| + |born|
    ensures |r - victims| == |r| - |victims * r|
    ensures |d - expired + victims * ready| == |d| - |expired| + |victims * ready|
    ensures |ready - victims| == |ready| - |victims * ready|
  {
    MinusSize(f, victims);
    MinusSize(r, victims);
    MinusSize(ready, victims);
    MinusSize(d, expired);
    assert expired * d == expired;
    assert (f - victims) !! born && (d - expired) !! (victims * ready);
  }

  /** Victims are all fresh, or all retiring and then all READY. */
  lemma VictimSizes(f: set<string>, r: set<string>, ready: set<string>, victims: set<string>)
    requires f !! r && r <= ready && (victims <= f || victims <= r)
    ensures victims <= f ==> |victims * f| == |victims| && |victims * r| == 0 && |victims * ready| <= |victims|
    ensures victims <= r ==> |victims * f| == 0 && |victims * r| == |victims * ready| == |victims|
  {
    if victims <= f {
      assert victims * f == victims && victims * r == {};
      MinusSize(victims, ready);
      assert victims * ready == ready * victims;
    }
    if victims <= r {
      assert victims * r == victims && victims * f == {} && victims * ready == victims;
    }
  }

  lemma PassCounts(tg: Target, objs: Objs, expired: set<string>, victims: set<string>, born: set<string>, after: Objs)
    requires Effect(tg, objs, Removed(objs, tg, expired, victims), Drained(objs, victims), born, after)
    requires "" !in tg.drainingNodes && expired <= InRole(objs, tg, OnDrain)
    requires victims <= InRole(objs, tg, Fresh) || victims <= InRole(objs, tg, Retiring)
    ensures var t, u, drained := TallyOf(objs, tg), TallyOf(after, tg), |Drained(objs, victims)|;
            && u.f == t.f + |born| - (if victims <= InRole(objs, tg, Fresh) then |victims| else 0)
            && u.r == t.r - (if victims <= InRole(objs, tg, Retiring) then |victims| else 0)
            && u.x == 0 && u.d == t.d - |expired| + drained && u.ready == t.ready - drained
            && drained <= |victims| && (victims <= InRole(objs, tg, Retiring) ==> drained == |victims|)
  {
    PassSets(tg, objs, expired, victims, born, after);
    RolesDisjoint(tg, objs);
    VictimSizes(InRole(objs, tg, Fresh), InRole(objs, tg, Retiring), ReadyNames(objs), victims);
    assert InRole(objs, tg, Fresh) - victims <= objs.Keys - Removed(objs, tg, expired, victims);
    GroupSizes(InRole(objs, tg, Fresh), InRole(objs, tg, Retiring), InRole(objs, tg, OnDrain), ReadyNames(objs),
               expired, victims, born);
  }

  /** The choreography read on group sizes. */
  ghost predicate TallyStep(t: Tally, u: Tally, tg: Target, objs: Objs, expired: nat, drained: nat) {
    var n := tg.replicas;
    && u.x == 0 && u.d == t.d - expired + drained && u.ready == t.ready - drained
    && if t.f > n then u.f == n && u.r == t.r && drained <= t.f - n
       else if t.f + t.r < n then u.f == n - t.r && u.r == t.r && drained == 0
       else if t.r == 0 || t.d > 0 then u.f == t.f && u.r == t.r && drained == 0
       else if t.f + t.r == n && AllReady(tg, objs) then u.f == t.f + 1 && u.r == t.r && drained == 0
       else if t.f + t.r > n && (Covered(tg, objs) || SurgeBlocked(tg, objs)) then
         u.f == t.f && u.r == t.r - 1 && drained == 1
       else u.f == t.f && u.r == t.r && drained == 0
  }

  /** How many victims and births each case of the choreography has. */
  ghost predicate Quota(tg: Target, objs: Objs, t: Tally, victims: set<string>, born: nat) {
    if t.f > tg.replicas then victims <= InRole(objs, tg, Fresh) && |victims| == t.f - tg.replicas && born == 0
    else if t.f + t.r < tg.replicas then |victims| == 0 && born == tg.replicas - t.f - t.r
    else if t.r == 0 || t.d > 0 then |victims| == born == 0
    else if t.f + t.r == tg.replicas && AllReady(tg, objs) then |victims| == 0 && born == 1
    else if t.f + t.r > tg.replicas && (Covered(tg, objs) || SurgeBlocked(tg, objs)) then
      victims <= InRole(objs, tg, Retiring) && |victims| == 1 && born == 0
    else |victims| == born == 0
  }

  lemma ChoreographyCounts(tg: Target, objs: Objs, victims: set<string>, born: set<string>)
    requires Choreography(tg, objs, victims, born)
    ensures Quota(tg, objs, TallyOf(objs, tg), victims, |born|)
  {}

  lemma TallyArithmetic(tg: Target, objs: Objs, victims: set<string>, t: Tally, u: Tally, born: nat, expired: nat,
                        drained: nat)
    requires u.f == t.f + born - (if victims <= InRole(objs, tg, Fresh) then |victims| else 0)
    requires u.r == t.r - (if victims <= InRole(objs, tg, Retiring) then |victims| else 0)
    requires u.x == 0 && u.d == t.d - expired + drained && u.ready == t.ready - drained
    requires drained <= |victims| && (victims <= InRole(objs, tg, Retiring) ==> drained == |victims|)
    requires Quota(tg, objs, t, victims, born)
    ensures TallyStep(t, u, tg, objs, expired, drained)
  {
    RolesDisjoint(tg, objs);
    if victims <= InRole(objs, tg, Fresh) && victims <= InRole(objs, tg, Retiring) {
      assert victims == {};
    }
  }

  lemma PassTally(tg: Target, objs: Objs, expired: set<string>, victims: set<string>, born: set<string>, after: Objs)
    requires Pass(tg, objs, expired, victims, born, after) && "" !in tg.drainingNodes
    ensures TallyStep(TallyOf(objs, tg), TallyOf(after, tg), tg, objs, |expired|, |Drained(objs, victims)|)
  {
    VictimsServe(tg, objs, victims, born);
    PassCounts(tg, objs, expired, victims, born, after);
    ChoreographyCounts(tg, objs, victims, born);
    TallyArithmetic(tg, objs, victims, TallyOf(objs, tg), TallyOf(after, tg), |born|, |expired|,
                    |Drained(objs, victims)|);
  }

  /** A pass never leaves the workload short of its replicas nor more than one surge above. */
  lemma PassKeepsReplicas(tg: Target, objs: Objs, expired: set<string>, victims: set<string>, born: set<string>,
                          after: Objs)
    requires Pass(tg, objs, expired, victims, born, after) && "" !in tg.drainingNodes
    ensures var t, u := TallyOf(objs, tg), TallyOf(after, tg);
            && tg.replicas <= u.f + u.r
            && (u.f + u.r <= t.f + t.r || u.f + u.r <= tg.replicas + 1)
  {
    PassTally(tg, objs, expired, victims, born, after);
  }

  /**
   The drain-first fallback is due: the surge found no capacity, so a retiring instance goes before its replacement
   serves.
   */
  predicate Fallback(tg: Target, objs: Objs) {
    var current, retiring := InRole(objs, tg, Fresh), InRole(objs, tg, Retiring);
    && |current| <= tg.replicas < |current| + |retiring| && InRole(objs, tg, OnDrain) == {}
    && SurgeBlocked(tg, objs) && !Covered(tg, objs)
  }

  /**
   Serving capacity: outside a scale-down a pass keeps READY at or above
   min(old READY, replicas) unless the drain-first fallback is due while READY
   is at most the replicas; the fallback gives up exactly one READY instance.
   */
  lemma PassKeepsReady(tg: Target, objs: Objs, expired: set<string>, victims: set<string>, born: set<string>,
                       after: Objs)
    requires Pass(tg, objs, expired, victims, born, after) && "" !in tg.drainingNodes && !ScaleDown(tg, objs)
    ensures var was, now := |ReadyNames(objs)|, |ReadyNames(after)|;
            && (Fallback(tg, objs) ==> now == was - 1)
            && ((now >= was || now >= tg.replicas) <==> !(Fallback(tg, objs) && was <= tg.replicas))
  {
    PassTally(tg, objs, expired, victims, born, after);
    ReadySplit(tg, objs);
    OneRetirementAtATime(tg, objs, expired, victims, born, after);
  }

  /** Every retiring instance is READY, so READY counts them and the READY fresh ones. */
  lemma ReadySplit(tg: Target, objs: Objs)
    ensures |ReadyNames(objs)| == |InRole(objs, tg, Fresh) * ReadyNames(objs)| + |InRole(objs, tg, Retiring)|
  {
    RolesDisjoint(tg, objs);
    var f, r, ready := InRole(objs, tg, Fresh), InRole(objs, tg, Retiring), ReadyNames(objs);
    assert ready == (f * ready) + r && (f * ready) !! r;
  }

  /**
   Scale-down picks by age alone. It keeps the READY promise exactly when its
   victims were not serving, or the fresh instances it keeps that are not
   READY are no more than the retiring ones that still serve.
   */
  lemma ScaleDownReady(tg: Target, objs: Objs, expired: set<string>, victims: set<string>, born: set<string>,
                       after: Objs)
    requires Pass(tg, objs, expired, victims, born, after) && "" !in tg.drainingNodes && ScaleDown(tg, objs)
    ensures var was, now := |ReadyNames(objs)|, |ReadyNames(after)|;
            var kept := InRole(objs, tg, Fresh) - victims;
            (now >= was || now >= tg.replicas) <==>
              (victims * ReadyNames(objs) == {} || |kept - ReadyNames(objs)| <= |InRole(objs, tg, Retiring)|)
  {
    PassTally(tg, objs, expired, victims, born, after);
    ReadySplit(tg, objs);
    KeptSizes(InRole(objs, tg, Fresh), victims, ReadyNames(objs));
  }

  lemma KeptSizes(current: set<string>, victims: set<string>, ready: set<string>)
    requires victims <= current
    ensures |current * ready| - |victims * ready| == |current| - |victims| - |current - victims - ready|
    ensures victims * ready == {} <==> |victims * ready| == 0
  {
    var kept := current - victims;
    assert current == victims + kept;
    assert kept == (kept * ready) + (kept - ready);
    assert current * ready == (victims * ready) + (kept * ready);
  }

  /** Outside a scale-down an instance starts draining only when none was, and only one does. */
  lemma OneRetirementAtATime(tg: Target, objs: Objs, expired: set<string>, victims: set<string>, born: set<string>,
                             after: Objs)
    requires Pass(tg, objs, expired, victims, born, after) && !ScaleDown(tg, objs)
    ensures InRole(objs, tg, OnDrain) != {} ==> victims == {}
    ensures |victims| <= 1 && victims <= InRole(objs, tg, Retiring)
  {}

  // ---------------------------------------------------------------- termination

  function Measure(tg: Target, t: Tally): nat {
    var n := tg.replicas;
    4 * t.r + (if t.r > 0 && t.f + t.r <= n then 2 else 0)
    + (if t.f + t.r < n then 3 * (n - t.f - t.r) else 0)
    + (if t.f > n then 2 * (t.f - n) else 0)
    + t.d + t.x
  }

  predicate Done(tg: Target, objs: Objs) {
    var t := TallyOf(objs, tg);
    t.f == tg.replicas && t.r == t.d == t.x == 0
  }

  lemma TallyShrinks(tg: Target, objs: Objs, t: Tally, u: Tally, drained: nat)
    requires TallyStep(t, u, tg, objs, t.d, drained) && AllReady(tg, objs) && Covered(tg, objs)
    requires !(t.f == tg.replicas && t.r == t.d == t.x == 0)
    ensures Measure(tg, u) < Measure(tg, t)
  {}

  lemma AllReadyCovered(tg: Target, objs: Objs)
    requires AllReady(tg, objs)
    ensures Covered(tg, objs)
  {
    assert InRole(objs, tg, Fresh) * ReadyNames(objs) == InRole(objs, tg, Fresh);
  }

  lemma DoneIsStill(tg: Target, objs: Objs, expired: set<string>, victims: set<string>, born: set<string>, after: Objs)
    requires Pass(tg, objs, expired, victims, born, after) && Done(tg, objs)
    ensures after == objs
  {
    ChoreographyCounts(tg, objs, victims, born);
    VictimsServe(tg, objs, victims, born);
    assert victims == born == expired == {};
    EffectOfNothing(tg, objs, Removed(objs, tg, expired, victims), Drained(objs, victims), born, after);
  }

  lemma EffectOfNothing(tg: Target, objs: Objs, removed: set<string>, drained: set<string>, born: set<string>,
                        after: Objs)
    requires Effect(tg, objs, removed, drained, born, after) && removed == drained == born == {}
    ensures after == objs
  {
    forall n | n in objs ensures after[n] == objs[n] {
      assert n in objs.Keys - removed - drained;
    }
  }

  /** With the fresh instances READY and every drain expired, a pass makes progress or has nothing left to do. */
  lemma PassShrinks(tg: Target, objs: Objs, victims: set<string>, born: set<string>, after: Objs)
    requires Pass(tg, objs, InRole(objs, tg, OnDrain), victims, born, after) && "" !in tg.drainingNodes
    requires AllReady(tg, objs)
    ensures if Done(tg, objs) then after == objs
            else Measure(tg, TallyOf(after, tg)) < Measure(tg, TallyOf(objs, tg))
  {
    if Done(tg, objs) {
      DoneIsStill(tg, objs, InRole(objs, tg, OnDrain), victims, born, after);
    } else {
      PassTally(tg, objs, InRole(objs, tg, OnDrain), victims, born, after);
      AllReadyCovered(tg, objs);
      TallyShrinks(tg, objs, TallyOf(objs, tg), TallyOf(after, tg), |Drained(objs, victims)|);
    }
  }

  /**
   Between passes the fresh instances come up; anything else may vanish, and
   what was retiring or draining may fail.
   */
  ghost predicate Settles(tg: Target, objs: Objs, next: Objs) {
    && next.Keys <= objs.Keys
    && (forall n | n in objs && RoleOf(objs[n].value, tg) == Fresh ::
          n in next && RoleOf(next[n].value, tg) == Fresh && next[n].value.phase == Ready)
    && (forall n | n in next && RoleOf(objs[n].value, tg) != Fresh ::
          RoleOf(next[n].value, tg) == RoleOf(objs[n].value, tg) || RoleOf(next[n].value, tg) == Doomed)
  }

  /** Fewer retiring instances, even if they linger as doomed ones, never set a rollout back. */
  lemma MeasureDrops(tg: Target, t: Tally, u: Tally)
    requires u.f == t.f && u.r <= t.r && u.r + u.d + u.x <= t.r + t.d + t.x
    ensures Measure(tg, u) <= Measure(tg, t)
  {}

  lemma UnionSize(a: set<string>, b: set<string>, c: set<string>)
    requires a !! b !! c
    ensures |a + b + c| == |a| + |b| + |c|
  {}

  lemma SubsetSize(a: set<string>, b: set<string>)
    requires a <= b
    ensures |a| <= |b|
  {
    assert b == a + (b - a);
  }

  lemma SettlesNeverRaises(tg: Target, objs: Objs, next: Objs)
    requires Settles(tg, objs, next)
    ensures Measure(tg, TallyOf(next, tg)) <= Measure(tg, TallyOf(objs, tg))
  {
    var r, d, x := InRole(objs, tg, Retiring), InRole(objs, tg, OnDrain), InRole(objs, tg, Doomed);
    var r', d', x' := InRole(next, tg, Retiring), InRole(next, tg, OnDrain), InRole(next, tg, Doomed);
    assert InRole(next, tg, Fresh) == InRole(objs, tg, Fresh);
    assert r' <= r && r' + d' + x' <= r + d + x;
    RolesDisjoint(tg, objs);
    RolesDisjoint(tg, next);
    SubsetSize(r', r);
    SubsetSize(r' + d' + x', r + d + x);
    UnionSize(r, d, x);
    UnionSize(r', d', x');
    MeasureDrops(tg, TallyOf(objs, tg), TallyOf(next, tg));
  }

  ghost predicate Round(tg: Target, objs: Objs, next: Objs) {
    exists victims, born, after ::
      Pass(tg, objs, InRole(objs, tg, OnDrain), victims, born, after) && Settles(tg, after, next)
  }

  ghost predicate Rounds(tg: Target, run: seq<Objs>) {
    && "" !in tg.drainingNodes
    && (forall i | 0 <= i < |run| :: AllReady(tg, run[i]))
    && (forall i | 0 <= i < |run| - 1 :: Round(tg, run[i], run[i + 1]))
  }

  lemma {:induction false} MeasureFalls(tg: Target, run: seq<Objs>, k: nat)
    requires Rounds(tg, run) && k < |run| && forall i | 0 <= i < k :: !Done(tg, run[i])
    ensures Measure(tg, TallyOf(run[k], tg)) + k <= Measure(tg, TallyOf(run[0], tg))
  {
    if k > 0 {
      MeasureFalls(tg, run, k - 1);
      assert Round(tg, run[k - 1], run[k - 1 + 1]);
      var victims, born, after :|
        Pass(tg, run[k - 1], InRole(run[k - 1], tg, OnDrain), victims, born, after) && Settles(tg, after, run[k]);
      PassShrinks(tg, run[k - 1], victims, born, after);
      SettlesNeverRaises(tg, after, run[k]);
    }
  }

  /** The rollout's goal on the stored instances themselves. */
  ghost predicate RolledOut(tg: Target, objs: Objs) {
    && |objs| == tg.replicas
    && forall n | n in objs ::
         objs[n].value.hash == tg.hash && objs[n].value.node !in tg.drainingNodes && objs[n].value.phase == Ready
  }

  /** Nothing is left with a stale template or on a draining node, and the replicas all serve. */
  lemma DoneMeans(tg: Target, objs: Objs)
    requires AllReady(tg, objs)
    ensures Done(tg, objs) <==> RolledOut(tg, objs)
  {
    var f, r := InRole(objs, tg, Fresh), InRole(objs, tg, Retiring);
    var d, x := InRole(objs, tg, OnDrain), InRole(objs, tg, Doomed);
    assert objs.Keys == f + (r + d + x);
    assert |objs.Keys| == |objs|;
    if Done(tg, objs) {
      assert r + d + x == {};
      assert f == objs.Keys;
      forall n | n in objs
        ensures objs[n].value.hash == tg.hash && objs[n].value.node !in tg.drainingNodes && objs[n].value.phase == Ready
      {
        assert n in f && n in ReadyNames(objs);
      }
    }
    if RolledOut(tg, objs) {
      assert f == objs.Keys && r == {} && d == {} && x == {};
    }
  }

  /** A rollout is done within as many passes as its measure says. */
  lemma RolloutTerminates(tg: Target, run: seq<Objs>)
    requires run != [] && Rounds(tg, run) && |run| > Measure(tg, TallyOf(run[0], tg))
    ensures exists i | 0 <= i < |run| :: Done(tg, run[i]) && RolledOut(tg, run[i])
  {
    if forall i | 0 <= i < |run| :: !Done(tg, run[i]) {
      MeasureFalls(tg, run, |run| - 1);
    }
    var i :| 0 <= i < |run| && Done(tg, run[i]);
    DoneMeans(tg, run[i]);
  }

  /** Two fresh instances, the newer one serving and the older one not up yet. */
  function HalfUp(b: Phase, rev: nat): Objs {
    map["a" := Version(Instance("a", 1, 1, "w", "h", "n", Pending, "", 0), 1),
        "b" := Version(Instance("b", 2, 2, "w", "h", "n", b, "", 0), rev)]
  }

  const DOWN_TO_ONE := Target("w", 1, "h", 0, {})

  lemma HalfUpGroups(b: Phase, rev: nat)
    requires b == Ready || b == Draining
    ensures InRole(HalfUp(b, rev), DOWN_TO_ONE, Fresh) == if b == Ready then {"a", "b"} else {"a"}
    ensures InRole(HalfUp(b, rev), DOWN_TO_ONE, Doomed) == {}
    ensures ReadyNames(HalfUp(b, rev)) == if b == Ready then {"b"} else {}
  {}

  lemma HalfUpChoreography()
    ensures Choreography(DOWN_TO_ONE, HalfUp(Ready, 2), {"b"}, {})
  {
    HalfUpGroups(Ready, 2);
    assert |{"a", "b"}| == 2;
  }

  lemma HalfUpEffect()
    ensures Effect(DOWN_TO_ONE, HalfUp(Ready, 2), Removed(HalfUp(Ready, 2), DOWN_TO_ONE, {}, {"b"}),
                   Drained(HalfUp(Ready, 2), {"b"}), {}, HalfUp(Draining, 3))
  {
    HalfUpGroups(Ready, 2);
    assert Drained(HalfUp(Ready, 2), {"b"}) == {"b"};
    assert Removed(HalfUp(Ready, 2), DOWN_TO_ONE, {}, {"b"}) == {};
  }

  /** A retiring instance that serves, and the surge for it that found no capacity. */
  function SurgeStuck(b: Phase, rev: nat): Objs {
    map["a" := Version(Instance("a", 1, 2, "w", "new", "", Pending, MSG_NO_CAPACITY, 0), 2),
        "b" := Version(Instance("b", 2, 1, "w", "old", "n", b, "", 0), rev)]
  }

  const ROLL_ONE := Target("w", 1, "new", 0, {})

  lemma SurgeStuckGroups(b: Phase, rev: nat)
    requires b == Ready || b == Draining
    ensures var objs := SurgeStuck(b, rev);
            && InRole(objs, ROLL_ONE, Fresh) == {"a"} && InRole(objs, ROLL_ONE, Doomed) == {}
            && InRole(objs, ROLL_ONE, Retiring) == (if b == Ready then {"b"} else {})
            && InRole(objs, ROLL_ONE, OnDrain) == (if b == Ready then {} else {"b"})
            && ReadyNames(objs) == if b == Ready then {"b"} else {}
  {}

  lemma SurgeStuckFallback()
    ensures Fallback(ROLL_ONE, SurgeStuck(Ready, 1)) && Choreography(ROLL_ONE, SurgeStuck(Ready, 1), {"b"}, {})
  {
    SurgeStuckGroups(Ready, 1);
    assert Blocked(SurgeStuck(Ready, 1)["a"].value);
    assert {"a"} * {"b"} == {};
  }

  /**
   The drain-first fallback can leave nobody serving: the one READY instance drains before its replacement has a node.
   */
  lemma FallbackDips()
    ensures Fallback(ROLL_ONE, SurgeStuck(Ready, 1))
    ensures Pass(ROLL_ONE, SurgeStuck(Ready, 1), {}, {"b"}, {}, SurgeStuck(Draining, 3))
    ensures ReadyNames(SurgeStuck(Ready, 1)) == {"b"} && ReadyNames(SurgeStuck(Draining, 3)) == {}
  {
    hide SurgeStuck, Fallback, Choreography, Effect, InRole, ReadyNames;
    SurgeStuckGroups(Ready, 1);
    SurgeStuckGroups(Draining, 3);
    SurgeStuckFallback();
    SurgeStuckEffect();
  }

  lemma SurgeStuckEffect()
    ensures var objs := SurgeStuck(Ready, 1);
            Effect(ROLL_ONE, objs, Removed(objs, ROLL_ONE, {}, {"b"}), Drained(objs, {"b"}), {},
                   SurgeStuck(Draining, 3))
  {
    SurgeStuckGroups(Ready, 1);
    hide InRole, ReadyNames, Newborn;
    var objs := SurgeStuck(Ready, 1);
    assert Drained(objs, {"b"}) == {"b"};
    assert Removed(objs, ROLL_ONE, {}, {"b"}) == {};
  }

  /** Scale-down can cost READY instances: here it drains the one that serves and keeps the one that does not. */
  lemma ScaleDownCanDip()
    ensures Pass(DOWN_TO_ONE, HalfUp(Ready, 2), {}, {"b"}, {}, HalfUp(Draining, 3))
    ensures ReadyNames(HalfUp(Ready, 2)) == {"b"} && ReadyNames(HalfUp(Draining, 3)) == {}
  {
    HalfUpGroups(Ready, 2);
    HalfUpGroups(Draining, 3);
    HalfUpChoreography();
    HalfUpEffect();
  }

  // ---------------------------------------------------------------- the choreography on stored fields

  /** The victims come newest first: later created, of equal ones later written, at last by name. */
  ghost predicate YoungestOf(objs: Objs, chosen: set<string>, from: set<string>) {
    chosen <= from <= objs.Keys && forall a, b | a in chosen && b in from && b !in chosen ::
      var x, y := objs[a], objs[b];
      || x.value.created > y.value.created
      || (x.value.created == y.value.created && x.rev > y.rev)
      || (x.value.created == y.value.created && x.rev == y.rev && !Less(x.value.name, y.value.name))
  }

  lemma NewestMeans(objs: Objs, chosen: set<string>, from: set<string>, k: nat)
    ensures Newest(objs, chosen, from, k) <==> YoungestOf(objs, chosen, from) && |chosen| == k
  {
    hide Less;
    if YoungestOf(objs, chosen, from) && |chosen| == k {
      forall a, b | a in chosen && b in from - chosen ensures !Newer(objs[b], objs[a]) {
        assert a in chosen && b in from && b !in chosen;
      }
    }
  }

  ghost function FreshNames(tg: Target, objs: Objs): set<string> {
    set n | n in objs && objs[n].value.phase != Draining && objs[n].value.hash == tg.hash
            && objs[n].value.node !in tg.drainingNodes
  }

  ghost function StaleNames(tg: Target, objs: Objs): set<string> {
    set n | n in objs && objs[n].value.phase == Ready
            && (objs[n].value.hash != tg.hash || objs[n].value.node in tg.drainingNodes)
  }

  ghost function DrainingNames(objs: Objs): set<string> {
    set n | n in objs && objs[n].value.phase == Draining
  }

  ghost function FreshReady(tg: Target, objs: Objs): set<string> {
    set n | n in FreshNames(tg, objs) && objs[n].value.phase == Ready
  }

  lemma NamesByRole(tg: Target, objs: Objs)
    ensures InRole(objs, tg, Fresh) == FreshNames(tg, objs) && InRole(objs, tg, Retiring) == StaleNames(tg, objs)
    ensures InRole(objs, tg, OnDrain) == DrainingNames(objs)
  {}

  /**
   The rollout's decision, read off the stored instances. Fresh ones have the
   target's template and a node that stays; stale ones are READY and have not.
   Too many fresh: the surplus newest go. Too few in all: the difference is
   born. While anything drains, or nothing is stale, nothing happens. At
   strength, one more is born once all fresh are READY. Above strength, the
   newest stale one goes, once enough fresh ones are READY or the scheduler
   has said of one that it cannot be placed.
   */
  ghost predicate DecidedByFields(tg: Target, objs: Objs, victims: set<string>, born: set<string>) {
    var current, stale, ready := FreshNames(tg, objs), StaleNames(tg, objs), FreshReady(tg, objs);
    if |current| > tg.replicas then
      |victims| == |current| - tg.replicas && YoungestOf(objs, victims, current) && born == {}
    else if |current| + |stale| < tg.replicas then victims == {} && |born| == tg.replicas - |current| - |stale|
    else if stale == {} || DrainingNames(objs) != {} then victims == {} && born == {}
    else if |current| + |stale| == tg.replicas then victims == {} && |born| == if ready == current then 1 else 0
    else
      && born == {}
      && if |ready| >= tg.replicas || ready == current || exists n | n in current :: Refused(objs[n].value)
         then |victims| == 1 && YoungestOf(objs, victims, stale) else victims == {}
  }

  /** An unbound instance with one of the scheduler's two messages. */
  ghost predicate Refused(i: Instance) {
    i.node == "" && (i.message == "no ready schedulable node with free capacity" || "pinned node " <= i.message)
  }

  lemma ChoreographyMeans(tg: Target, objs: Objs, victims: set<string>, born: set<string>)
    ensures Choreography(tg, objs, victims, born) <==> DecidedByFields(tg, objs, victims, born)
  {
    var current, stale := FreshNames(tg, objs), StaleNames(tg, objs);
    NamesByRole(tg, objs);
    CoverMeans(tg, objs);
    forall k: nat
      ensures Newest(objs, victims, current, k) <==> YoungestOf(objs, victims, current) && |victims| == k
      ensures Newest(objs, victims, stale, k) <==> YoungestOf(objs, victims, stale) && |victims| == k
    {
      NewestMeans(objs, victims, current, k);
      NewestMeans(objs, victims, stale, k);
    }
    hide InRole, FreshNames, StaleNames, DrainingNames, FreshReady;
    hide AllReady, Covered, SurgeBlocked, Newest, YoungestOf, Refused;
  }

  lemma CoverMeans(tg: Target, objs: Objs)
    ensures var current, ready := FreshNames(tg, objs), FreshReady(tg, objs);
            && (AllReady(tg, objs) <==> ready == current)
            && (|current| <= tg.replicas ==> (Covered(tg, objs) <==> |ready| >= tg.replicas || ready == current))
            && (SurgeBlocked(tg, objs) <==> exists n | n in current :: Refused(objs[n].value))
  {
    NamesByRole(tg, objs);
    var current, ready := FreshNames(tg, objs), FreshReady(tg, objs);
    assert ready == current * ReadyNames(objs);
    hide InRole, FreshNames, FreshReady, ReadyNames;
    MinusSize(current, ready);
    assert ready * current == ready;
    if |ready| >= |current| {
      assert current - ready == {};
    }
    assert ready == current <==> current <= ReadyNames(objs);
  }

  /** The drain-first fallback on stored fields. */
  lemma FallbackMeans(tg: Target, objs: Objs)
    ensures Fallback(tg, objs) <==>
        var current, stale, ready := FreshNames(tg, objs), StaleNames(tg, objs), FreshReady(tg, objs);
        && |current| <= tg.replicas < |current| + |stale| && DrainingNames(objs) == {}
        && |ready| < tg.replicas && ready != current && exists n | n in current :: Refused(objs[n].value)
  {
    NamesByRole(tg, objs);
    CoverMeans(tg, objs);
    hide InRole, FreshNames, StaleNames, DrainingNames, FreshReady, Covered, SurgeBlocked, Refused;
  }

  /** Who leaves the store in a pass, and who goes DRAINING. */
  ghost predicate Leaves(tg: Target, i: Instance, expired: bool, victim: bool) {
    || (i.phase != Ready && i.phase != Draining && (i.hash != tg.hash || i.node in tg.drainingNodes))
    || (i.phase == Draining && expired)
    || (i.phase != Ready && victim)
  }

  lemma LeavesMeans(tg: Target, objs: Objs, expired: set<string>, victims: set<string>, n: string)
    requires n in objs && expired <= InRole(objs, tg, OnDrain)
    ensures n in Removed(objs, tg, expired, victims) <==> Leaves(tg, objs[n].value, n in expired, n in victims)
    ensures n in Drained(objs, victims) <==> n in victims && objs[n].value.phase == Ready
  {}

  /** What becomes of each stored instance in a pass, and what is born. */
  lemma PassMeans(tg: Target, objs: Objs, expired: set<string>, victims: set<string>, born: set<string>, after: Objs,
                  n: string)
    requires Pass(tg, objs, expired, victims, born, after)
    ensures DecidedByFields(tg, objs, victims, born)
    ensures n in objs && n !in born ==>
        (n in after <==> !Leaves(tg, objs[n].value, n in expired, n in victims))
    ensures n in objs && n !in born && n in after ==>
        if n in victims then after[n].value == objs[n].value.(phase := Draining, message := after[n].value.message)
        else after[n] == objs[n]
    ensures n in born ==> n in after
    ensures n in born ==>
        after[n].value == Instance(n, after[n].value.uid, after[n].value.created, tg.workload, tg.hash, "", Pending,
                                   after[n].value.message, tg.drainSeconds)
    ensures n in after ==> n in objs || n in born
  {
    ChoreographyMeans(tg, objs, victims, born);
    if n in objs {
      LeavesMeans(tg, objs, expired, victims, n);
    }
    hide Choreography, DecidedByFields, Removed, Drained, InRole;
  }
}
