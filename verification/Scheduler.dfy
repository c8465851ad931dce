/**
 The scheduler: greedy placement of unbound instances on the least loaded
 eligible node, decided on one (possibly stale) list and written by CAS.
 */
module Scheduler {
  import opened Store
  import opened Order
  import opened Instances
  import Rollout

  datatype Node = Node(name: string, ready: bool, cordoned: bool, maxInstances: int)

  type Counts = map<string, nat>

  function Count(c: Counts, n: string): nat {
    if n in c then c[n] else 0
  }

  predicate Schedulable(n: Node) {
    n.ready && !n.cordoned
  }

  predicate Eligible(pin: string, n: Node, c: Counts) {
    (pin == "" || n.name == pin) && Schedulable(n) && Count(c, n.name) < n.maxInstances
  }

  datatype Pick = Chosen(node: string) | PinUnschedulable(pin: string) | NoCapacity

  /** Fewest instances first, names breaking ties. */
  predicate Better(c: Counts, a: string, b: string) {
    Count(c, a) < Count(c, b) || (Count(c, a) == Count(c, b) && Less(a, b))
  }

  /** The least loaded eligible node, or the reason there is none. */
  ghost predicate Picked(pin: string, nodes: seq<Node>, c: Counts, r: Pick) {
    if exists n | n in nodes :: Eligible(pin, n, c) then
      && r.Chosen? && (exists n | n in nodes :: Eligible(pin, n, c) && n.name == r.node)
      && (forall m | m in nodes && Eligible(pin, m, c) && m.name != r.node :: Better(c, r.node, m.name))
    else r == if pin != "" then PinUnschedulable(pin) else NoCapacity
  }

  /** On the node's own fields: READY, not cordoned, the pinned one if there is a pin, and with room left. */
  ghost predicate Takes(n: Node, pin: string, c: Counts) {
    n.ready && !n.cordoned && (pin != "" ==> n.name == pin) && (if n.name in c then c[n.name] else 0) < n.maxInstances
  }

  /** `a` has fewer instances than `b`, or as many and the smaller name. */
  ghost predicate Lighter(c: Counts, a: string, b: string) {
    var x, y := if a in c then c[a] else 0, if b in c then c[b] else 0;
    x < y || (x == y && Less(a, b))
  }

  lemma PickedMeans(pin: string, nodes: seq<Node>, c: Counts, r: Pick)
    ensures Picked(pin, nodes, c, r) <==>
        match r
        case Chosen(node) => exists n | n in nodes ::
          n.name == node && Takes(n, pin, c)
          && forall m | m in nodes && Takes(m, pin, c) && m.name != node :: Lighter(c, node, m.name)
        case PinUnschedulable(p) => pin != "" && p == pin && forall n | n in nodes :: !Takes(n, pin, c)
        case NoCapacity => pin == "" && forall n | n in nodes :: !Takes(n, pin, c)
  {
    assert forall n :: Takes(n, pin, c) <==> Eligible(pin, n, c);
    assert forall a, b :: Lighter(c, a, b) <==> Better(c, a, b);
    hide Takes, Eligible, Lighter, Better;
  }

  /** The least loaded node that takes the instance; with none, a reason that tells a pin from a full cluster. */
  method PickNode(pin: string, nodes: seq<Node>, c: Counts) returns (r: Pick)
    ensures Picked(pin, nodes, c, r)
    ensures r.Chosen? <==> exists n | n in nodes :: Takes(n, pin, c)
    ensures r.Chosen? ==> exists n | n in nodes :: n.name == r.node && Takes(n, pin, c)
    ensures r.Chosen? ==> forall m | m in nodes && Takes(m, pin, c) && m.name != r.node :: Lighter(c, r.node, m.name)
    ensures !r.Chosen? ==> r == if pin != "" then PinUnschedulable(pin) else NoCapacity
  {
    hide Less;
    var best: Option<Node> := None;
    for i := 0 to |nodes|
      invariant best.None? <==> forall j | 0 <= j < i :: !Eligible(pin, nodes[j], c)
      invariant best.Some? ==> best.value in nodes && Eligible(pin, best.value, c)
      invariant best.Some? ==> forall j | 0 <= j < i && Eligible(pin, nodes[j], c) ::
                  nodes[j].name == best.value.name || Better(c, best.value.name, nodes[j].name)
    {
      var n := nodes[i];
      if Eligible(pin, n, c) {
        if best.None? || Better(c, n.name, best.value.name) {
          if best.Some? {
            BetterThanAll(pin, nodes, c, i, best.value.name, n.name);
          }
          best := Some(n);
        } else {
          LessTotal(n.name, best.value.name);
        }
      }
    }
    if best.None? {
      r := if pin != "" then PinUnschedulable(pin) else NoCapacity;
    } else {
      r := Chosen(best.value.name);
    }
    PickedMeans(pin, nodes, c, r);
    hide Takes, Eligible, Lighter, Better;
  }

  lemma BetterThanAll(pin: string, nodes: seq<Node>, c: Counts, i: nat, was: string, now: string)
    requires i <= |nodes| && Better(c, now, was)
    requires forall j | 0 <= j < i && Eligible(pin, nodes[j], c) ::
        nodes[j].name == was || Better(c, was, nodes[j].name)
    ensures forall j | 0 <= j < i && Eligible(pin, nodes[j], c) :: nodes[j].name == now || Better(c, now, nodes[j].name)
  {
    forall j | 0 <= j < i && Eligible(pin, nodes[j], c) ensures Better(c, now, nodes[j].name) {
      if Better(c, was, nodes[j].name) && Less(now, was) && Less(was, nodes[j].name) {
        LessTransitive(now, was, nodes[j].name);
      }
    }
  }

  /** The choice depends on which nodes are listed, not on their order. */
  lemma PickOrderIndependent(pin: string, nodes: seq<Node>, others: seq<Node>, c: Counts, r: Pick, q: Pick)
    requires forall n :: n in nodes <==> n in others
    requires Picked(pin, nodes, c, r) && Picked(pin, others, c, q)
    ensures r == q
  {
    if r.Chosen? {
      LessTotal(r.node, q.node);
    }
  }

  // ---------------------------------------------------------------- counts

  /** Names of the listed instances on a node once the plan is carried out. */
  function On(listed: seq<Listed>, plan: map<string, string>, n: string): set<string> {
    set l | l in listed && (if l.value.name in plan then plan[l.value.name] else l.value.node) == n :: l.value.name
  }

  ghost predicate Tallied(listed: seq<Listed>, plan: map<string, string>, c: Counts) {
    forall n | n != "" :: Count(c, n) == |On(listed, plan, n)|
  }

  lemma OnPrefix(listed: seq<Listed>, l: Listed, n: string)
    requires l.value.name !in Names(listed)
    ensures On(listed + [l], map[], n) == On(listed, map[], n) + (if l.value.node == n then {l.value.name} else {})
    ensures l.value.name !in On(listed, map[], n)
  {}

  lemma OnPlanned(listed: seq<Listed>, plan: map<string, string>, k: string, p: string, n: string)
    requires k in Names(listed) && k !in plan && p != ""
    requires forall l | l in listed && l.value.name == k :: l.value.node == ""
    ensures n != "" ==> On(listed, plan[k := p], n) == On(listed, plan, n) + (if n == p then {k} else {})
    ensures n != "" ==> k !in On(listed, plan, n)
  {}

  lemma TallyPlanned(listed: seq<Listed>, plan: map<string, string>, c: Counts, k: string, p: string)
    requires Tallied(listed, plan, c) && k in Names(listed) && k !in plan && p != ""
    requires forall l | l in listed && l.value.name == k :: l.value.node == ""
    ensures Tallied(listed, plan[k := p], c[p := Count(c, p) + 1])
  {
    hide Count, On;
    var d := c[p := Count(c, p) + 1];
    OneMore(c, p);
    forall n | n != "" ensures Count(d, n) == |On(listed, plan[k := p], n)| {
      OnPlanned(listed, plan, k, p, n);
    }
  }

  lemma TallyListed(listed: seq<Listed>, l: Listed, c: Counts)
    requires Tallied(listed, map[], c) && l.value.name !in Names(listed)
    ensures Tallied(listed + [l], map[],
                    if l.value.node != "" then c[l.value.node := Count(c, l.value.node) + 1] else c)
  {
    var after := if l.value.node != "" then c[l.value.node := Count(c, l.value.node) + 1] else c;
    forall n | n != "" ensures Count(after, n) == |On(listed + [l], map[], n)| {
      OnPrefix(listed, l, n);
    }
  }

  method CountBound(listed: seq<Listed>) returns (c: Counts, pending: seq<Listed>)
    requires Distinct(listed)
    ensures Tallied(listed, map[], c)
    ensures (forall l :: l in pending <==> l in listed && l.value.node == "") && Distinct(pending)
  {
    hide Tallied, Distinct, Names;
    c, pending := map[], [];
    TallyNone();
    for i := 0 to |listed|
      invariant Tallied(listed[..i], map[], c)
      invariant forall l :: l in pending <==> l in listed[..i] && l.value.node == ""
      invariant Names(pending) <= Names(listed[..i]) && Distinct(pending)
    {
      var l := listed[i];
      assert listed[..i + 1] == listed[..i] + [l];
      NextName(listed, i);
      TallyListed(listed[..i], l, c);
      if l.value.node != "" {
        c := c[l.value.node := Count(c, l.value.node) + 1];
      } else {
        DistinctAppend(pending, l);
        pending := pending + [l];
      }
    }
    assert listed[..|listed|] == listed;
  }

  lemma TallyNone()
    ensures Tallied([], map[], map[]) && Names([]) == {} && Distinct([])
  {}

  // ---------------------------------------------------------------- guarantees of the counts

  ghost predicate NamedNodes(nodes: seq<Node>) {
    && (forall n | n in nodes :: n.name != "")
    && (forall m, n | m in nodes && n in nodes && m.name == n.name :: m == n)
  }

  /** No node is filled past its capacity; one already over it gets nothing more. */
  ghost predicate WithinCapacity(nodes: seq<Node>, c0: Counts, c: Counts) {
    && (forall n :: Count(c0, n) <= Count(c, n))
    && (forall n | n in nodes :: Count(c, n.name) <= Count(c0, n.name) || Count(c, n.name) <= n.maxInstances)
    && (forall n | Count(c, n) != Count(c0, n) :: exists m | m in nodes :: m.name == n && Schedulable(m))
  }

  /** A node that received an instance is at most one above any schedulable node with room left. */
  ghost predicate Balanced(nodes: seq<Node>, c0: Counts, c: Counts) {
    forall a, b | a in nodes && b in nodes && Count(c, a.name) > Count(c0, a.name)
                  && Schedulable(b) && Count(c, b.name) < b.maxInstances ::
      Count(c, a.name) <= Count(c, b.name) + 1
  }

  lemma PickedLeast(pin: string, nodes: seq<Node>, c: Counts, p: string) returns (n: Node)
    requires NamedNodes(nodes) && Picked(pin, nodes, c, Chosen(p))
    ensures n in nodes && n.name == p && p != "" && Eligible(pin, n, c)
    ensures forall m | m in nodes && Eligible(pin, m, c) :: Count(c, p) <= Count(c, m.name)
  {
    hide Count, Less;
    n :| n in nodes && Eligible(pin, n, c) && n.name == p;
  }

  lemma OneMore(c: Counts, p: string)
    ensures forall n :: Count(c[p := Count(c, p) + 1], n) == Count(c, n) + if n == p then 1 else 0
  {}

  lemma CapacityKept(pin: string, nodes: seq<Node>, c0: Counts, c: Counts, p: string)
    requires NamedNodes(nodes) && Picked(pin, nodes, c, Chosen(p)) && WithinCapacity(nodes, c0, c)
    ensures WithinCapacity(nodes, c0, c[p := Count(c, p) + 1]) && p != ""
    ensures MayRun(nodes, pin, p)
  {
    hide Count, Picked;
    var n := PickedLeast(pin, nodes, c, p);
    OneMore(c, p);
  }

  lemma BalanceKept(nodes: seq<Node>, c0: Counts, c: Counts, p: string)
    requires NamedNodes(nodes) && Picked("", nodes, c, Chosen(p)) && Balanced(nodes, c0, c)
    ensures Balanced(nodes, c0, c[p := Count(c, p) + 1])
  {
    hide Count, Picked;
    var n := PickedLeast("", nodes, c, p);
    OneMore(c, p);
  }

  /** Once nothing suits a pin, nothing suits it later in the pass. */
  lemma NoRoomStays(pin: string, nodes: seq<Node>, c: Counts, d: Counts)
    requires (forall n :: Count(c, n) <= Count(d, n)) && forall n | n in nodes :: !Eligible(pin, n, c)
    ensures forall n | n in nodes :: !Eligible(pin, n, d)
  {}

  // ---------------------------------------------------------------- the pass

  type Pins = map<string, string>

  /** The node a workload is pinned to, "" for none. */
  function Pin(pins: Pins, i: Instance): string {
    if i.workload in pins then pins[i.workload] else ""
  }

  function Reason(p: Pick): string
    requires !p.Chosen?
  {
    match p
    case PinUnschedulable(pin) => PINNED_PREFIX + "\"" + pin + "\" is not schedulable"
    case NoCapacity => MSG_NO_CAPACITY
  }

  /** Why an instance with this pin was left unbound. */
  function Refusal(pin: string): Pick {
    if pin != "" then PinUnschedulable(pin) else NoCapacity
  }

  function Explained(i: Instance, pin: string): Instance {
    i.(phase := Pending, message := Reason(Refusal(pin)))
  }

  /** The rollout recognises every refusal the scheduler writes, and so falls back to draining first. */
  lemma RefusalBlocksSurge(i: Instance, pin: string)
    requires i.node == ""
    ensures Rollout.Blocked(Explained(i, pin))
  {
    if pin != "" {
      assert PINNED_PREFIX <= Reason(Refusal(pin));
    }
  }

  function BoundTo(i: Instance, node: string): Instance {
    i.(node := node, message := "", phase := if i.phase == Unspecified then Pending else i.phase)
  }

  /**
   What a pass does to one pending instance: bind it as planned, or leave it unbound with the reason its pin gives.
   */
  ghost predicate Handled(before: Objs, after: Objs, l: Listed, pin: string, plan: map<string, string>,
                          failed: Failures) {
    var k := l.value.name;
    && (k in after <==> k in before)
    && (!Current(before, l) && k in before ==> after[k] == before[k])
    && (Current(before, l) && k in plan ==> after[k].value == BoundTo(l.value, plan[k]))
    && (Current(before, l) && k !in plan ==>
          || after[k].value == Explained(l.value, pin)
          || (after[k] == before[k] && (k in failed || l.value == Explained(l.value, pin))))
  }

  ghost predicate MayRun(nodes: seq<Node>, pin: string, p: string) {
    exists n | n in nodes :: n.name == p && Schedulable(n) && (pin != "" ==> p == pin)
  }

  /** Who went where, and why that was allowed. */
  ghost predicate Sound(pending: seq<Listed>, nodes: seq<Node>, pins: Pins, plan: map<string, string>) {
    forall k | k in plan :: plan[k] != "" && exists l | l in pending ::
        l.value.name == k && MayRun(nodes, Pin(pins, l.value), plan[k])
  }

  ghost predicate Unpinned(pending: seq<Listed>, pins: Pins) {
    forall l | l in pending :: Pin(pins, l.value) == ""
  }

  /** The instances among the first `i` that were left out, other than by a failed write, have no eligible node. */
  ghost predicate Exhausted(pending: seq<Listed>, i: nat, nodes: seq<Node>, pins: Pins,
                            plan: map<string, string>, failed: Failures, c: Counts) {
    i <= |pending| && forall j | 0 <= j < i && pending[j].value.name !in plan && pending[j].value.name !in failed ::
      forall n | n in nodes :: !Eligible(Pin(pins, pending[j].value), n, c)
  }

  ghost predicate Effect(before: Objs, after: Objs, pending: seq<Listed>, i: nat, pins: Pins,
                         plan: map<string, string>, failed: Failures) {
    && i <= |pending|
    && (forall j | 0 <= j < i :: Handled(before, after, pending[j], Pin(pins, pending[j].value), plan, failed))
    && (forall k | k !in Names(pending[..i]) ::
          (k in after <==> k in before) && (k in before ==> after[k] == before[k]))
  }

  /** The whole pass: who is placed where and what that does to the counts. */
  ghost predicate Placed(listed: seq<Listed>, pending: seq<Listed>, i: nat, nodes: seq<Node>, pins: Pins, c0: Counts,
                         plan: map<string, string>, failed: Failures, c: Counts) {
    && i <= |pending| && Tallied(listed, plan, c) && plan.Keys + failed.Keys <= Names(pending[..i])
    && Sound(pending, nodes, pins, plan)
    && WithinCapacity(nodes, c0, c)
    && (Unpinned(pending, pins) ==> Balanced(nodes, c0, c))
    && Exhausted(pending, i, nodes, pins, plan, failed, c)
  }

  lemma PlacedNone(listed: seq<Listed>, pending: seq<Listed>, nodes: seq<Node>, pins: Pins, c0: Counts, objs: Objs)
    requires Tallied(listed, map[], c0)
    ensures Placed(listed, pending, 0, nodes, pins, c0, map[], map[], c0)
    ensures Effect(objs, objs, pending, 0, pins, map[], map[])
  {}

  lemma SoundMore(pending: seq<Listed>, nodes: seq<Node>, pins: Pins, plan: map<string, string>, l: Listed, p: string)
    requires Sound(pending, nodes, pins, plan) && l in pending && p != ""
    requires MayRun(nodes, Pin(pins, l.value), p)
    ensures Sound(pending, nodes, pins, plan[l.value.name := p])
  {}

  lemma ExhaustedMore(pending: seq<Listed>, i: nat, nodes: seq<Node>, pins: Pins,
                      plan: map<string, string>, failed: Failures, c: Counts, p: string)
    requires Exhausted(pending, i, nodes, pins, plan, failed, c) && i < |pending|
    ensures Exhausted(pending, i + 1, nodes, pins, plan[pending[i].value.name := p], failed, c[p := Count(c, p) + 1])
  {
    hide Eligible, Pin;
    var k, d := pending[i].value.name, c[p := Count(c, p) + 1];
    OneMore(c, p);
    forall j | 0 <= j < i + 1 && pending[j].value.name !in plan[k := p] && pending[j].value.name !in failed
      ensures forall n | n in nodes :: !Eligible(Pin(pins, pending[j].value), n, d)
    {
      NoRoomStays(Pin(pins, pending[j].value), nodes, c, d);
    }
  }

  lemma PlacedStep(listed: seq<Listed>, pending: seq<Listed>, i: nat, nodes: seq<Node>, pins: Pins, c0: Counts,
                   plan: map<string, string>, failed: Failures, c: Counts, p: string)
    requires Placed(listed, pending, i, nodes, pins, c0, plan, failed, c) && i < |pending| && Distinct(pending)
    requires NamedNodes(nodes)
    requires (forall l :: l in pending <==> l in listed && l.value.node == "") && Distinct(listed)
    requires Picked(Pin(pins, pending[i].value), nodes, c, Chosen(p))
    ensures Placed(listed, pending, i + 1, nodes, pins, c0, plan[pending[i].value.name := p], failed,
                   c[p := Count(c, p) + 1])
    ensures pending[i].value.name !in plan && p != ""
  {
    hide Tallied, WithinCapacity, Balanced, Sound, Picked, Exhausted, NamedNodes, Distinct, Names, Count;
    var l := pending[i];
    NextName(pending, i);
    CapacityKept(Pin(pins, l.value), nodes, c0, c, p);
    if Unpinned(pending, pins) {
      assert l in pending;
      BalanceKept(nodes, c0, c, p);
    }
    SoundMore(pending, nodes, pins, plan, l, p);
    OnlyListing(listed, l);
    TallyPlanned(listed, plan, c, l.value.name, p);
    ExhaustedMore(pending, i, nodes, pins, plan, failed, c, p);
  }

  lemma OnlyListing(listed: seq<Listed>, l: Listed)
    requires Distinct(listed) && l in listed
    ensures l.value.name in Names(listed) && forall m | m in listed && m.value.name == l.value.name :: m == l
  {
    forall m | m in listed && m.value.name == l.value.name ensures m == l {
      var i, j :| 0 <= i < |listed| && listed[i] == l && 0 <= j < |listed| && listed[j] == m;
      NextName(listed, if i < j then j else i);
    }
  }

  /** An instance left out because nothing fits, or because its write failed. */
  lemma PlacedSkip(listed: seq<Listed>, pending: seq<Listed>, i: nat, nodes: seq<Node>, pins: Pins, c0: Counts,
                   plan: map<string, string>, failed: Failures, c: Counts, failed': Failures)
    requires Placed(listed, pending, i, nodes, pins, c0, plan, failed, c) && i < |pending| && Distinct(pending)
    requires var k := pending[i].value.name; failed' == failed || (k in failed' && failed' == failed[k := failed'[k]])
    requires pending[i].value.name !in failed' ==> forall n | n in nodes :: !Eligible(Pin(pins, pending[i].value), n, c)
    ensures Placed(listed, pending, i + 1, nodes, pins, c0, plan, failed', c)
    ensures pending[i].value.name !in plan
  {
    hide Tallied, WithinCapacity, Balanced, Sound, Eligible, Distinct, Names, Count;
    NextName(pending, i);
  }

  lemma EffectStep(before: Objs, mid: Objs, after: Objs, pending: seq<Listed>, i: nat, pins: Pins,
                   plan: map<string, string>, failed: Failures, plan': map<string, string>, failed': Failures)
    requires Effect(before, mid, pending, i, pins, plan, failed) && i < |pending| && Distinct(pending)
    requires var k := pending[i].value.name;
             && SameBut(k, mid, after) && SameBut(k, plan, plan') && SameBut(k, failed, failed')
    requires Handled(mid, after, pending[i], Pin(pins, pending[i].value), plan', failed')
    ensures Effect(before, after, pending, i + 1, pins, plan', failed')
  {
    hide Distinct, Names, Handled, Pin;
    var k := pending[i].value.name;
    NextName(pending, i);
    forall j | 0 <= j < i ensures Handled(before, after, pending[j], Pin(pins, pending[j].value), plan', failed') {
      PrefixNames(pending, i, j);
      HandledFrame(before, mid, after, pending[j], Pin(pins, pending[j].value), plan, failed, plan', failed', k);
    }
    HandledBase(before, mid, after, pending[i], Pin(pins, pending[i].value), plan', failed');
  }

  /** Two maps differ at `k` at most. */
  ghost predicate SameBut<V>(k: string, a: map<string, V>, b: map<string, V>) {
    forall m | m != k :: (m in b <==> m in a) && (m in a ==> b[m] == a[m])
  }

  lemma PrefixNames(ls: seq<Listed>, i: nat, j: nat)
    requires j < i <= |ls|
    ensures ls[j].value.name in Names(ls[..i])
  {
    assert ls[..i][j] == ls[j];
  }

  lemma HandledFrame(before: Objs, mid: Objs, after: Objs, l: Listed, pin: string, plan: map<string, string>,
                     failed: Failures,
                     plan': map<string, string>, failed': Failures, k: string)
    requires Handled(before, mid, l, pin, plan, failed) && l.value.name != k
    requires SameBut(k, mid, after) && SameBut(k, plan, plan') && SameBut(k, failed, failed')
    ensures Handled(before, after, l, pin, plan', failed')
  {
    hide Explained;
  }

  lemma HandledBase(before: Objs, mid: Objs, after: Objs, l: Listed, pin: string, plan: map<string, string>,
                    failed: Failures)
    requires Handled(mid, after, l, pin, plan, failed)
    requires var k := l.value.name; (k in mid <==> k in before) && (k in before ==> mid[k] == before[k])
    ensures Handled(before, after, l, pin, plan, failed)
  {
    hide Explained;
  }

  datatype Write = Done | Lost | Failed

  class SchedulerLoop {
    var db: Db<string, Instance>
    const fails: Faults
    var calls: nat

    constructor (db: Db<string, Instance>, fails: Faults)
      ensures this.db == db && this.fails == fails && calls == 0
    {
      this.db, this.fails, calls := db, fails, 0;
    }

    /** A CAS put at the listed revision; any call may fail outright. */
    method Put(l: Listed, v: Instance) returns (w: Write)
      modifies this`db, this`calls
      ensures (w.Failed? <==> fails(old(calls))) && calls == old(calls) + 1
      ensures w.Done? ==> Current(old(db.objs), l) && db == Written(old(db), l.value.name, v)
      ensures w.Lost? ==> !Current(old(db.objs), l)
      ensures !w.Done? ==> db == old(db)
    {
      calls := calls + 1;
      if fails(calls - 1) {
        return Write.Failed;
      }
      if !Current(db.objs, l) {
        return Lost;
      }
      db := Written(db, l.value.name, v);
      w := Done;
    }

    /** Binds one instance; a lost race is not an error, and still counts against the node. */
    method Bind(l: Listed, node: string, pin: string, ghost plan: map<string, string>,
                ghost failed: Failures) returns (ok: bool)
      requires l.value.name !in plan
      modifies this`db, this`calls
      ensures calls == old(calls) + 1 && (ok <==> NoFault(fails, old(calls), calls))
      ensures ok ==> Handled(old(db.objs), db.objs, l, pin, plan[l.value.name := node], failed)
      ensures !ok ==> Handled(old(db.objs), db.objs, l, pin, plan, failed[l.value.name := old(calls)])
      ensures SameBut(l.value.name, old(db.objs), db.objs)
    {
      hide Explained;
      var w := Put(l, BoundTo(l.value, node));
      ok := !w.Failed?;
      OneCall(fails, old(calls), ok);
    }

    /** Records the refusal, unless the instance already carries it. */
    method ExplainPending(l: Listed, p: Pick, pin: string, ghost plan: map<string, string>,
                          ghost failed: Failures) returns (ok: bool)
      requires l.value.name !in plan && p == Refusal(pin)
      modifies this`db, this`calls
      ensures old(calls) <= calls <= old(calls) + 1 && (ok <==> NoFault(fails, old(calls), calls))
      ensures Handled(old(db.objs), db.objs, l, pin, plan, if ok then failed else failed[l.value.name := old(calls)])
      ensures SameBut(l.value.name, old(db.objs), db.objs)
    {
      if l.value.message == Reason(p) && l.value.phase == Pending {
        assert l.value == Explained(l.value, pin);
        return true;
      }
      var w := Put(l, l.value.(phase := Pending, message := Reason(p)));
      ok := !w.Failed?;
      OneCall(fails, old(calls), ok);
    }

    /** One pass over a list that other writers may already have outdated; `failed` logs the writes that failed. */
    method Reconcile(listed: seq<Listed>, nodes: seq<Node>, pins: Pins)
        returns (ok: bool, plan: map<string, string>, ghost failed: Failures,
                 ghost pending: seq<Listed>, ghost c0: Counts, counts: Counts)
      requires Distinct(listed) && NamedNodes(nodes)
      modifies this`db, this`calls
      ensures (forall l :: l in pending <==> l in listed && l.value.node == "") && Distinct(pending)
      ensures Tallied(listed, map[], c0)
      ensures calls >= old(calls) && Logged(failed, fails, old(calls), calls)
      ensures (ok <==> NoFault(fails, old(calls), calls))
      ensures Placed(listed, pending, |pending|, nodes, pins, c0, plan, failed, counts)
      ensures Effect(old(db.objs), db.objs, pending, |pending|, pins, plan, failed)
    {
      hide *;
      var todo;
      counts, todo := CountBound(listed);
      pending, c0 := todo, counts;
      ok, plan, failed := true, map[], map[];
      PlacedNone(listed, pending, nodes, pins, c0, db.objs);
      NoCalls(fails, calls);
      NothingLogged(fails, calls, calls);
      for i := 0 to |todo|
        invariant Placed(listed, pending, i, nodes, pins, c0, plan, failed, counts)
        invariant Effect(old(db.objs), db.objs, pending, i, pins, plan, failed)
        invariant calls >= old(calls) && Logged(failed, fails, old(calls), calls) && (ok <==> failed == map[])
      {
        var l := todo[i];
        ghost var mid, plan0, failed0, call := db.objs, plan, failed, calls;
        var pin := Pin(pins, l.value);
        var pick := PickNode(pin, nodes, counts);
        var fine;
        if pick.Chosen? {
          PlacedStep(listed, pending, i, nodes, pins, c0, plan, failed, counts, pick.node);
          fine := Bind(l, pick.node, pin, plan, failed);
          if fine {
            plan := plan[l.value.name := pick.node];
            counts := counts[pick.node := Count(counts, pick.node) + 1];
          } else {
            failed := failed[l.value.name := call];
            PlacedSkip(listed, pending, i, nodes, pins, c0, plan, failed0, counts, failed);
          }
        } else {
          NothingFits(pin, nodes, counts, pick);
          PendingUnplanned(listed, pending, i, nodes, pins, c0, plan, failed, counts);
          fine := ExplainPending(l, pick, pin, plan, failed);
          failed := if fine then failed else failed[l.value.name := call];
          PlacedSkip(listed, pending, i, nodes, pins, c0, plan, failed0, counts, failed);
        }
        ok := ok && fine;
        ghost var log := LoggedStep(failed0, fails, old(calls), call, calls, l.value.name, fine);
        assert log == failed;
        OneKey(l.value.name, plan0, plan);
        OneKey(l.value.name, failed0, failed);
        EffectStep(old(db.objs), mid, db.objs, pending, i, pins, plan0, failed0, plan, failed);
      }
      LoggedMeans(failed, fails, old(calls), calls);
    }
  }

  lemma OneKey<V>(k: string, a: map<string, V>, b: map<string, V>)
    requires b == a || (k in b && b == a[k := b[k]])
    ensures SameBut(k, a, b)
  {}

  lemma PendingUnplanned(listed: seq<Listed>, pending: seq<Listed>, i: nat, nodes: seq<Node>, pins: Pins, c0: Counts,
                         plan: map<string, string>, failed: Failures, c: Counts)
    requires Placed(listed, pending, i, nodes, pins, c0, plan, failed, c) && i < |pending| && Distinct(pending)
    ensures pending[i].value.name !in plan
  {
    hide Tallied, Sound, WithinCapacity, Balanced, Exhausted, Distinct, Names;
    NextName(pending, i);
  }

  lemma NothingFits(pin: string, nodes: seq<Node>, c: Counts, r: Pick)
    requires Picked(pin, nodes, c, r) && !r.Chosen?
    ensures r == Refusal(pin) && forall n | n in nodes :: !Eligible(pin, n, c)
  {}

  /** An instance the pass left unbound, its write not having failed, blocks the surge of its rollout from then on. */
  lemma LeftPendingBlocks(pending: seq<Listed>, j: nat, pins: Pins, plan: map<string, string>, failed: Failures,
                          before: Objs, after: Objs)
    requires Effect(before, after, pending, |pending|, pins, plan, failed) && j < |pending|
    requires pending[j].value.node == ""
    requires var k := pending[j].value.name; k in before && before[k] == pending[j] && k !in plan && k !in failed
    ensures pending[j].value.name in after && Rollout.Blocked(after[pending[j].value.name].value)
  {
    hide Reason, Rollout.Blocked;
    var l := pending[j];
    assert Handled(before, after, l, Pin(pins, l.value), plan, failed);
    RefusalBlocksSurge(l.value, Pin(pins, l.value));
  }

  /** Where an undisturbed pass leaves a listed instance. */
  lemma EndsOn(listed: seq<Listed>, pending: seq<Listed>, pins: Pins, plan: map<string, string>, failed: Failures,
               before: Objs, after: Objs, l: Listed)
    requires (forall l :: l in pending <==> l in listed && l.value.node == "") && l in listed && Distinct(listed)
    requires Effect(before, after, pending, |pending|, pins, plan, failed) && plan.Keys <= Names(pending)
    requires l.value.name in before && before[l.value.name] == l
    ensures var k := l.value.name;
            k in after && after[k].value.node == if k in plan then plan[k] else l.value.node
  {
    hide Distinct, Reason, Refusal;
    if l.value.node == "" {
      var j :| 0 <= j < |pending| && pending[j] == l;
      assert Handled(before, after, pending[j], Pin(pins, pending[j].value), plan, failed);
    } else {
      assert pending[..|pending|] == pending;
      OnlyListing(listed, l);
      assert l.value.name !in Names(pending);
    }
  }

  /** Undisturbed, the planned load of a node is the load the store ends up with. */
  lemma PlannedIsStored(listed: seq<Listed>, pending: seq<Listed>, pins: Pins, plan: map<string, string>,
                        failed: Failures,
                        before: Objs, after: Objs, n: string)
    requires Lists(listed, before) && (forall l :: l in pending <==> l in listed && l.value.node == "")
    requires Effect(before, after, pending, |pending|, pins, plan, failed) && plan.Keys <= Names(pending) && n != ""
    ensures On(listed, plan, n) == set k | k in after && after[k].value.node == n
  {
    EffectKeys(before, after, pending, pins, plan, failed);
    forall l | l in listed
      ensures l.value.name in after
      ensures after[l.value.name].value.node == if l.value.name in plan then plan[l.value.name] else l.value.node
    {
      EndsOn(listed, pending, pins, plan, failed, before, after, l);
    }
    hide Effect, Distinct;
  }

  lemma EffectKeys(before: Objs, after: Objs, pending: seq<Listed>, pins: Pins, plan: map<string, string>,
                   failed: Failures)
    requires Effect(before, after, pending, |pending|, pins, plan, failed)
    ensures after.Keys == before.Keys
  {
    hide Explained;
    assert pending[..|pending|] == pending;
    forall k ensures k in after <==> k in before {
      if k in Names(pending) {
        var j :| 0 <= j < |pending| && pending[j].value.name == k;
        assert Handled(before, after, pending[j], Pin(pins, pending[j].value), plan, failed);
      }
    }
  }

  function Load(objs: Objs, n: string): nat {
    |set k | k in objs && objs[k].value.node == n|
  }

  lemma ListedLoad(listed: seq<Listed>, objs: Objs, n: string)
    requires Lists(listed, objs)
    ensures |On(listed, map[], n)| == Load(objs, n)
  {
    hide Distinct;
    assert On(listed, map[], n) == set k | k in objs && objs[k].value.node == n;
  }

  /** An undisturbed pass, in terms of the store: capacity holds everywhere, and unpinned placement stays balanced. */
  lemma StoredLoads(listed: seq<Listed>, pending: seq<Listed>, nodes: seq<Node>, pins: Pins, c0: Counts,
                    plan: map<string, string>, failed: Failures, c: Counts, before: Objs, after: Objs)
    requires Lists(listed, before) && (forall l :: l in pending <==> l in listed && l.value.node == "")
    requires NamedNodes(nodes)
    requires Tallied(listed, map[], c0) && Placed(listed, pending, |pending|, nodes, pins, c0, plan, failed, c)
    requires Effect(before, after, pending, |pending|, pins, plan, failed)
    ensures forall n | n in nodes ::
        Load(after, n.name) <= Load(before, n.name) || Load(after, n.name) <= n.maxInstances
    ensures Unpinned(pending, pins) ==>
        forall a, b | a in nodes && b in nodes && Load(after, a.name) > Load(before, a.name)
                      && Schedulable(b) && Load(after, b.name) < b.maxInstances ::
          Load(after, a.name) <= Load(after, b.name) + 1
  {
    hide Lists, Load, Count, On, Effect;
    assert pending[..|pending|] == pending;
    forall n | n in nodes
      ensures Count(c0, n.name) == Load(before, n.name) && Count(c, n.name) == Load(after, n.name)
    {
      ListedLoad(listed, before, n.name);
      PlannedIsStored(listed, pending, pins, plan, failed, before, after, n.name);
      LoadIs(after, n.name);
    }
  }

  lemma LoadIs(objs: Objs, n: string)
    ensures Load(objs, n) == |set k | k in objs && objs[k].value.node == n|
  {}

  /**
   A pass on stored fields. A planned instance still at its listed version is
   bound to a node that was READY, not cordoned and the pinned one if there was
   a pin; one left out is unbound and says why, and no node took it then or at the end.
   */
  lemma PassMeans(listed: seq<Listed>, pending: seq<Listed>, nodes: seq<Node>, pins: Pins, c0: Counts,
                  plan: map<string, string>, failed: Failures, c: Counts, before: Objs, after: Objs, l: Listed)
    requires Placed(listed, pending, |pending|, nodes, pins, c0, plan, failed, c) && Distinct(pending)
    requires Effect(before, after, pending, |pending|, pins, plan, failed)
    requires l in pending && l.value.node == "" && l.value.name in before && before[l.value.name] == l
    ensures var k, i := l.value.name, l.value;
            var pin := if i.workload in pins then pins[i.workload] else "";
            k in after
            && if k in plan then
                 && after[k].value == i.(node := plan[k], message := "", phase := after[k].value.phase)
                 && after[k].value.phase == (if i.phase == Unspecified then Pending else i.phase)
                 && (exists n | n in nodes ::
                       n.name == plan[k] && n.ready && !n.cordoned && (pin != "" ==> n.name == pin))
               else if k in failed && after[k] == before[k] then true
               else
                 && after[k].value == i.(phase := Pending, message := after[k].value.message)
                 && after[k].value.message == (if pin == "" then "no ready schedulable node with free capacity"
                                               else "pinned node \"" + pin + "\" is not schedulable")
                 && (k !in failed ==> forall n | n in nodes :: !Takes(n, pin, c))
  {
    var j :| 0 <= j < |pending| && pending[j] == l;
    assert Handled(before, after, pending[j], Pin(pins, l.value), plan, failed);
    RefusalReads(Pin(pins, l.value));
    assert forall n, pin :: Takes(n, pin, c) <==> Eligible(pin, n, c);
    if l.value.name in plan {
      PlannedRuns(pending, nodes, pins, plan, l);
    }
    hide Sound, WithinCapacity, Balanced, Tallied, Eligible, Takes, Reason, Refusal, Distinct, Names, Effect, MayRun;
  }

  lemma RefusalReads(pin: string)
    ensures Reason(Refusal(pin)) == if pin == "" then "no ready schedulable node with free capacity"
                                    else "pinned node \"" + pin + "\" is not schedulable"
  {}

  lemma PlannedRuns(pending: seq<Listed>, nodes: seq<Node>, pins: Pins, plan: map<string, string>, l: Listed)
    requires Sound(pending, nodes, pins, plan) && Distinct(pending) && l in pending && l.value.name in plan
    ensures exists n | n in nodes ::
        n.name == plan[l.value.name] && n.ready && !n.cordoned
        && (Pin(pins, l.value) != "" ==> n.name == Pin(pins, l.value))
  {
    hide Distinct, Pin;
    OnlyListing(pending, l);
    assert MayRun(nodes, Pin(pins, l.value), plan[l.value.name]);
  }
}
