/**
 Cross-node routing: endpoint groups, ingress listeners and the load
 assignment a consuming node's Envoy gets.

 An endpoint on another node is dialled at the owner's machine address and an
 allocated ingress port; several nodes may share one machine address.
 */
module Routing {
  import opened Store
  import opened Order
  import Instances
  import Allocator

  type Phase = Instances.Phase

  datatype Service = Service(name: string, selector: map<string, string>, targetPort: int)

  /** An instance as the network sees it. */
  datatype Pod = Pod(name: string, labels: map<string, string>, node: string, phase: Phase, ip: string)

  datatype NodeRecord = NodeRecord(advertise: string, index: int)

  datatype Inputs = Inputs(services: seq<Service>, pods: seq<Pod>, records: map<string, NodeRecord>,
                           ingress: map<string, Allocator.Alloc>)

  /** Every recorded node, and every node an instance is bound to. */
  function Nodes(inp: Inputs): set<string> {
    inp.records.Keys + set p | p in inp.pods && p.node != "" :: p.node
  }

  function Advertise(inp: Inputs, node: string): string {
    if node in inp.records then inp.records[node].advertise else ""
  }

  function IndexOf(inp: Inputs): map<string, int> {
    map n | n in inp.records :: inp.records[n].index
  }

  /** An empty selector selects nothing; a missing label reads as the empty string. */
  predicate Selects(s: Service, p: Pod) {
    s.selector != map[] && forall k | k in s.selector :: (if k in p.labels then p.labels[k] else "") == s.selector[k]
  }

  // ---------------------------------------------------------------- names

  predicate DotFree(s: string) {
    '.' !in s
  }

  function PairName(a: string, b: string): string {
    a + "." + b
  }

  lemma PairNameInjective(a: string, b: string, c: string, d: string)
    requires DotFree(a) && DotFree(c) && PairName(a, b) == PairName(c, d)
    ensures a == c && b == d
  {
    var n := PairName(a, b);
    assert n[|a|] == '.' && n[|c|] == '.';
    assert forall i | 0 <= i < |a| :: n[i] == a[i];
    assert forall i | 0 <= i < |c| :: n[i] == c[i];
    assert |a| == |c|;
    assert a == n[..|a|] && c == n[..|c|];
    assert b == n[|a| + 1..] && d == n[|c| + 1..];
  }

  /** Listed services and instances have distinct DNS-label names. */
  ghost predicate Labelled(services: seq<Service>, pods: seq<Pod>) {
    && (forall s | s in services :: DotFree(s.name)) && (forall p | p in pods :: DotFree(p.name))
    && (forall i, j | 0 <= i < j < |services| :: services[i].name != services[j].name)
    && (forall i, j | 0 <= i < j < |pods| :: pods[i].name != pods[j].name)
  }

  lemma SameName(services: seq<Service>, pods: seq<Pod>, s: Service, t: Service, p: Pod, q: Pod)
    requires Labelled(services, pods) && s in services && t in services && p in pods && q in pods
    requires PairName(s.name, p.name) == PairName(t.name, q.name)
    ensures s == t && p == q
  {
    PairNameInjective(s.name, p.name, t.name, q.name);
    var i, j :| 0 <= i < |services| && services[i] == s && 0 <= j < |services| && services[j] == t;
    var k, l :| 0 <= k < |pods| && pods[k] == p && 0 <= l < |pods| && pods[l] == q;
    assert i == j && k == l;
  }

  // ---------------------------------------------------------------- wanted allocations

  predicate Wants(base: int, index: map<string, int>, s: Service, p: Pod) {
    && p.node != "" && Selects(s, p)
    && Allocator.NodeRange(base, if p.node in index then index[p.node] else 0).Some?
  }

  function SpecOf(s: Service, p: Pod): Allocator.Spec {
    Allocator.Spec(s.name, p.name, p.node)
  }

  /** Exactly the selected pairs on indexed nodes, each under its own name. */
  ghost predicate WantedFor(services: seq<Service>, pods: seq<Pod>, base: int, index: map<string, int>,
                            want: map<string, Allocator.Spec>) {
    && (forall s, p | s in services && p in pods && Wants(base, index, s, p) ::
          PairName(s.name, p.name) in want && want[PairName(s.name, p.name)] == SpecOf(s, p))
    && (forall n | n in want :: exists s, p :: Origin(services, pods, base, index, n, s, p))
  }

  ghost predicate Origin(services: seq<Service>, pods: seq<Pod>, base: int, index: map<string, int>, n: string,
                         s: Service, p: Pod) {
    s in services && p in pods && Wants(base, index, s, p) && n == PairName(s.name, p.name)
  }

  lemma WantedMore(services: seq<Service>, pods: seq<Pod>, base: int, index: map<string, int>,
                   done: set<(Service, Pod)>, s: Service, p: Pod, want: map<string, Allocator.Spec>)
    requires Labelled(services, pods) && s in services && p in pods
    requires WantedOf(services, pods, base, index, done, want)
    ensures WantedOf(services, pods, base, index, done + {(s, p)},
                     if Wants(base, index, s, p) then want[PairName(s.name, p.name) := SpecOf(s, p)] else want)
  {
    hide Wants, PairName, Labelled;
    var n := PairName(s.name, p.name);
    forall t, q | t in services && q in pods && PairName(t.name, q.name) == n ensures t == s && q == p {
      SameName(services, pods, t, s, q, p);
    }
  }

  /** The wanted map with the pairs in `done` visited. */
  ghost predicate WantedOf(services: seq<Service>, pods: seq<Pod>, base: int, index: map<string, int>,
                           done: set<(Service, Pod)>, want: map<string, Allocator.Spec>) {
    && (forall s, p | (s, p) in done :: s in services && p in pods)
    && (forall s, p | (s, p) in done && Wants(base, index, s, p) ::
          PairName(s.name, p.name) in want && want[PairName(s.name, p.name)] == SpecOf(s, p))
    && (forall n | n in want :: exists s, p :: (s, p) in done && Origin(services, pods, base, index, n, s, p))
  }

  method Wanted(services: seq<Service>, pods: seq<Pod>, base: int, index: map<string, int>)
      returns (want: map<string, Allocator.Spec>)
    requires Labelled(services, pods)
    ensures WantedFor(services, pods, base, index, want)
  {
    hide Labelled, WantedOf, Selects, PairName, WantedFor;
    want := map[];
    ghost var done: set<(Service, Pod)> := {};
    WantedNone(services, pods, base, index);
    for i := 0 to |services|
      invariant WantedOf(services, pods, base, index, done, want)
      invariant forall a, b | 0 <= a < i && 0 <= b < |pods| :: (services[a], pods[b]) in done
    {
      for j := 0 to |pods|
        invariant WantedOf(services, pods, base, index, done, want)
        invariant forall a, b | 0 <= a < i && 0 <= b < |pods| :: (services[a], pods[b]) in done
        invariant forall b | 0 <= b < j :: (services[i], pods[b]) in done
      {
        var s, p := services[i], pods[j];
        WantedMore(services, pods, base, index, done, s, p, want);
        if Wants(base, index, s, p) {
          want := want[PairName(s.name, p.name) := SpecOf(s, p)];
        }
        done := done + {(s, p)};
      }
    }
    WantedAll(services, pods, base, index, done, want);
  }

  lemma WantedNone(services: seq<Service>, pods: seq<Pod>, base: int, index: map<string, int>)
    ensures WantedOf(services, pods, base, index, {}, map[])
  {}

  lemma WantedAll(services: seq<Service>, pods: seq<Pod>, base: int, index: map<string, int>,
                  done: set<(Service, Pod)>, want: map<string, Allocator.Spec>)
    requires WantedOf(services, pods, base, index, done, want)
    requires forall a, b | 0 <= a < |services| && 0 <= b < |pods| :: (services[a], pods[b]) in done
    ensures WantedFor(services, pods, base, index, want)
  {
    hide Wants, PairName, SpecOf;
    forall s, p | s in services && p in pods ensures (s, p) in done {
      var a, b :| 0 <= a < |services| && services[a] == s && 0 <= b < |pods| && pods[b] == p;
    }
  }

  // ---------------------------------------------------------------- endpoint groups

  datatype Health = Ready | Draining

  datatype Endpoint = Endpoint(ip: string, port: int, node: string, health: Health, ingressPort: int, machine: string)

  function HealthOf(phase: Phase): Option<Health> {
    match phase
    case Ready => Some(Health.Ready)
    case Draining => Some(Health.Draining)
    case _ => None
  }

  function PortOf(ingress: map<string, Allocator.Alloc>, n: string): int {
    if n in ingress && ingress[n].addr.Some? then ingress[n].addr.value else 0
  }

  /** The endpoint an instance contributes to a service's group, if any. */
  function EndpointOf(inp: Inputs, s: Service, p: Pod): seq<Endpoint> {
    if !Selects(s, p) || HealthOf(p.phase).None? || p.ip == "" then [] else
      [Endpoint(p.ip, s.targetPort, p.node, HealthOf(p.phase).value,
                PortOf(inp.ingress, PairName(s.name, p.name)), Advertise(inp, p.node))]
  }

  function GroupOf(inp: Inputs, s: Service): seq<Endpoint> {
    Collect(inp.pods, p => EndpointOf(inp, s, p))
  }

  method BuildGroups(inp: Inputs) returns (groups: map<string, seq<Endpoint>>)
    requires Labelled(inp.services, inp.pods)
    ensures groups.Keys == set s | s in inp.services :: s.name
    ensures forall s | s in inp.services :: s.name in groups && groups[s.name] == GroupOf(inp, s)
  {
    groups := map[];
    for i := 0 to |inp.services|
      invariant groups.Keys == set s | s in inp.services[..i] :: s.name
      invariant forall a | 0 <= a < i ::
                  inp.services[a].name in groups && groups[inp.services[a].name] == GroupOf(inp, inp.services[a])
    {
      var s := inp.services[i];
      var group := BuildGroup(inp, s);
      groups := groups[s.name := group];
      assert inp.services[..i + 1] == inp.services[..i] + [s];
    }
    assert inp.services[..|inp.services|] == inp.services;
  }

  method BuildGroup(inp: Inputs, s: Service) returns (group: seq<Endpoint>)
    ensures group == GroupOf(inp, s)
  {
    group := [];
    ghost var f := (p: Pod) => EndpointOf(inp, s, p);
    for k := 0 to |inp.pods|
      invariant group == Collect(inp.pods[..k], f)
    {
      var p := inp.pods[k];
      CollectStep(inp.pods, f, k);
      if Selects(s, p) && HealthOf(p.phase).Some? && p.ip != "" {
        group := group + [Endpoint(p.ip, s.targetPort, p.node, HealthOf(p.phase).value,
                                   PortOf(inp.ingress, PairName(s.name, p.name)), Advertise(inp, p.node))];
      }
    }
    assert inp.pods[..|inp.pods|] == inp.pods;
  }

  // ---------------------------------------------------------------- ingress listeners

  /** A listener on `port` that forwards to the pod; the Envoy listener and its one-endpoint cluster together. */
  datatype Listener = Listener(service: string, port: int, podIp: string, targetPort: int)

  /** The address of the last listed instance of that name, empty when there is none. */
  function IpOf(pods: seq<Pod>, name: string): string {
    if pods == [] then "" else
      var last := pods[|pods| - 1];
      if last.name == name then last.ip else IpOf(pods[..|pods| - 1], name)
  }

  function TargetPortOf(services: seq<Service>, name: string): Option<int> {
    if services == [] then None else
      var last := services[|services| - 1];
      if last.name == name then Some(last.targetPort) else TargetPortOf(services[..|services| - 1], name)
  }

  function ListenerOf(inp: Inputs, node: string, n: string): seq<Listener> {
    if n !in inp.ingress || inp.ingress[n].node != node then [] else
      var a := inp.ingress[n];
      var ip, target := IpOf(inp.pods, a.owner), TargetPortOf(inp.services, a.service);
      if ip == "" || target.None? then [] else [Listener(a.service, PortOf(inp.ingress, n), ip, target.value)]
  }

  /** A node's listeners in allocation-name order. */
  ghost predicate ListenersOf(inp: Inputs, node: string, ls: seq<Listener>) {
    exists names :: Enumerates(names, inp.ingress.Keys) && ls == Collect(names, n => ListenerOf(inp, node, n))
  }

  /** Equal inputs render equal listener lists, so an unchanged cluster moves no snapshot. */
  lemma ListenersDeterministic(inp: Inputs, node: string, a: seq<Listener>, b: seq<Listener>)
    requires ListenersOf(inp, node, a) && ListenersOf(inp, node, b)
    ensures a == b
  {
    hide ListenerOf, Enumerates;
    var m :| Enumerates(m, inp.ingress.Keys) && a == Collect(m, n => ListenerOf(inp, node, n));
    var l :| Enumerates(l, inp.ingress.Keys) && b == Collect(l, n => ListenerOf(inp, node, n));
    EnumeratesUnique(m, l, inp.ingress.Keys);
  }

  method BuildIngressListeners(inp: Inputs, node: string) returns (ls: seq<Listener>)
    ensures ListenersOf(inp, node, ls)
  {
    var ips, targets := Lookups(inp);
    var names := SortedKeys(inp.ingress.Keys);
    ls := [];
    ghost var f := (n: string) => ListenerOf(inp, node, n);
    for k := 0 to |names|
      invariant ls == Collect(names[..k], f)
    {
      CollectStep(names, f, k);
      var n := names[k];
      assert n in names;
      var a := inp.ingress[n];
      if a.node == node {
        var ip := if a.owner in ips then ips[a.owner] else "";
        if ip != "" && a.service in targets {
          ls := ls + [Listener(a.service, if a.addr.Some? then a.addr.value else 0, ip, targets[a.service])];
        }
      }
    }
    assert names[..|names|] == names;
  }

  /** The two lookup maps, a later entry of a name replacing an earlier one. */
  method Lookups(inp: Inputs) returns (ips: map<string, string>, targets: map<string, int>)
    ensures forall n :: IpOf(inp.pods, n) == if n in ips then ips[n] else ""
    ensures forall n :: TargetPortOf(inp.services, n) == if n in targets then Some(targets[n]) else None
  {
    ips, targets := map[], map[];
    for k := 0 to |inp.pods|
      invariant forall n :: IpOf(inp.pods[..k], n) == if n in ips then ips[n] else ""
    {
      ips := ips[inp.pods[k].name := inp.pods[k].ip];
      assert inp.pods[..k + 1][..k] == inp.pods[..k];
    }
    assert inp.pods[..|inp.pods|] == inp.pods;
    for k := 0 to |inp.services|
      invariant forall n :: TargetPortOf(inp.services[..k], n) == if n in targets then Some(targets[n]) else None
    {
      targets := targets[inp.services[k].name := inp.services[k].targetPort];
      assert inp.services[..k + 1][..k] == inp.services[..k];
    }
    assert inp.services[..|inp.services|] == inp.services;
  }

  lemma {:induction false} IpOfPod(pods: seq<Pod>, k: nat)
    requires k < |pods| && forall i, j | 0 <= i < j < |pods| :: pods[i].name != pods[j].name
    ensures IpOf(pods, pods[k].name) == pods[k].ip
  {
    if k < |pods| - 1 {
      IpOfPod(pods[..|pods| - 1], k);
    }
  }

  lemma {:induction false} TargetOfService(services: seq<Service>, k: nat)
    requires k < |services| && forall i, j | 0 <= i < j < |services| :: services[i].name != services[j].name
    ensures TargetPortOf(services, services[k].name) == Some(services[k].targetPort)
  {
    if k < |services| - 1 {
      TargetOfService(services[..|services| - 1], k);
    }
  }

  // ---------------------------------------------------------------- load assignment

  /** One rendered endpoint; `hop` marks a dial through the ingress listener. */
  datatype Lb = Lb(host: string, port: int, hop: bool, health: Health)

  function Render(node: string, ep: Endpoint): seq<Lb> {
    if ep.node == "" || ep.node == node then [Lb(ep.ip, ep.port, false, ep.health)]
    else if ep.ingressPort > 0 && ep.machine != "" then [Lb(ep.machine, ep.ingressPort, true, ep.health)]
    else []
  }

  method BuildLoadAssignment(node: string, group: seq<Endpoint>) returns (lbs: seq<Lb>)
    ensures lbs == Collect(group, ep => Render(node, ep))
  {
    lbs := [];
    ghost var f := (ep: Endpoint) => Render(node, ep);
    for k := 0 to |group|
      invariant lbs == Collect(group[..k], f)
    {
      var ep := group[k];
      CollectStep(group, f, k);
      if ep.node == "" || ep.node == node {
        lbs := lbs + [Lb(ep.ip, ep.port, false, ep.health)];
      } else if ep.ingressPort > 0 && ep.machine != "" {
        lbs := lbs + [Lb(ep.machine, ep.ingressPort, true, ep.health)];
      }
    }
    assert group[..|group|] == group;
  }

  /** A selector without entries fits nobody; an entry with an empty value also fits a missing label. */
  ghost predicate LabelsFit(s: Service, p: Pod) {
    |s.selector| > 0 && forall k | k in s.selector ::
      (k in p.labels && p.labels[k] == s.selector[k]) || (k !in p.labels && s.selector[k] == "")
  }

  lemma SelectsFit(s: Service, p: Pod)
    ensures Selects(s, p) <==> LabelsFit(s, p)
  {
    assert |s.selector| > 0 <==> s.selector != map[];
  }

  /**
   What a node's assignment shows of an instance, on the stored fields: only
   READY and DRAINING instances with an address are shown, each with its own
   health; one on another node needs a port and an advertised machine.
   */
  ghost predicate ShownAs(inp: Inputs, node: string, s: Service, p: Pod, lb: Lb) {
    && LabelsFit(s, p) && p.ip != ""
    && (p.phase == Instances.Ready || p.phase == Instances.Draining)
    && (lb.health == Health.Ready <==> p.phase == Instances.Ready)
    && (lb.health == Health.Draining <==> p.phase == Instances.Draining)
    && (lb.hop <==> p.node != "" && p.node != node)
    && if !lb.hop then lb.host == p.ip && lb.port == s.targetPort
       else
         var n := s.name + "." + p.name;
         && n in inp.ingress && inp.ingress[n].addr == Some(lb.port) && lb.port > 0
         && p.node in inp.records && inp.records[p.node].advertise == lb.host && lb.host != ""
  }

  lemma {:induction false} RendersAs(inp: Inputs, node: string, s: Service, p: Pod, lb: Lb)
    ensures (exists ep | ep in EndpointOf(inp, s, p) :: lb in Render(node, ep)) <==> ShownAs(inp, node, s, p, lb)
  {
    SelectsFit(s, p);
    if ShownAs(inp, node, s, p, lb) {
      var ep := EndpointOf(inp, s, p)[0];
      assert ep in EndpointOf(inp, s, p) && lb in Render(node, ep);
    }
  }

  /** End to end over groups and assignment: a node is shown exactly these endpoints of a service. */
  lemma AssignmentShows(inp: Inputs, node: string, s: Service, lb: Lb)
    ensures lb in Collect(GroupOf(inp, s), ep => Render(node, ep)) <==>
        exists p | p in inp.pods :: ShownAs(inp, node, s, p, lb)
  {
    hide EndpointOf, Render, ShownAs;
    var group, f, g := GroupOf(inp, s), (p: Pod) => EndpointOf(inp, s, p), (ep: Endpoint) => Render(node, ep);
    CollectMembers(group, g, lb);
    if ep :| ep in group && lb in g(ep) {
      CollectMembers(inp.pods, f, ep);
      var p :| p in inp.pods && ep in f(p);
      RendersAs(inp, node, s, p, lb);
    }
    if p :| p in inp.pods && ShownAs(inp, node, s, p, lb) {
      RendersAs(inp, node, s, p, lb);
      var ep :| ep in EndpointOf(inp, s, p) && lb in Render(node, ep);
      assert ep in f(p) && lb in g(ep);
      CollectMembers(inp.pods, f, ep);
    }
  }

  // ---------------------------------------------------------------- the allocator's fixpoint

  /** Allocations are only ever written under the name of their own service and instance. */
  ghost predicate NamedAfterOwner(objs: Allocator.Allocs) {
    forall n | n in objs :: DotFree(objs[n].value.service) && n == PairName(objs[n].value.service, objs[n].value.owner)
  }

  /** A pass of the allocator keeps that so. */
  lemma PassKeepsNames(services: seq<Service>, pods: seq<Pod>, base: int, index: map<string, int>,
                       want: map<string, Allocator.Spec>, before: Allocator.Allocs, after: Allocator.Allocs, rev: nat)
    requires Labelled(services, pods) && WantedFor(services, pods, base, index, want) && NamedAfterOwner(before)
    requires forall n | n in after ::
        (n in before && after[n] == before[n]) || (n in want && Allocator.Minted(after[n], rev, want[n]))
    ensures NamedAfterOwner(after)
  {
    hide Wants, PairName, DotFree;
    forall n | n in after && n in want && Allocator.Minted(after[n], rev, want[n])
      ensures DotFree(after[n].value.service) && n == PairName(after[n].value.service, after[n].value.owner)
    {
      var s, p :| Origin(services, pods, base, index, n, s, p);
      assert want[n] == SpecOf(s, p);
    }
  }

  /** One consistent read of a cluster whose ingress allocations are at the allocator's fixpoint. */
  ghost predicate Settled(inp: Inputs, base: int, want: map<string, Allocator.Spec>, objs: Allocator.Allocs) {
    && Labelled(inp.services, inp.pods)
    && WantedFor(inp.services, inp.pods, base, IndexOf(inp), want)
    && Allocator.Repaired(Allocator.Ingress(base, IndexOf(inp)), want, objs)
    && NamedAfterOwner(objs)
    && inp.ingress == map n | n in objs :: objs[n].value
  }

  lemma WantedPlaceable(inp: Inputs, base: int, want: map<string, Allocator.Spec>)
    requires Labelled(inp.services, inp.pods) && WantedFor(inp.services, inp.pods, base, IndexOf(inp), want)
    ensures forall n | n in want :: Allocator.Placeable(Allocator.Ingress(base, IndexOf(inp)), want[n])
  {
    hide Selects, Labelled, PairName, Allocator.NodeRange, IndexOf;
    forall n | n in want ensures Allocator.Placeable(Allocator.Ingress(base, IndexOf(inp)), want[n]) {
      var s, p :| Origin(inp.services, inp.pods, base, IndexOf(inp), n, s, p);
      assert want[n] == SpecOf(s, p);
    }
  }

  /**
   A pass of the ingress controller over one read of the cluster: unless a
   node's slice is full, routing may rely on what it leaves, whatever stood before.
   */
  method ReconcileIngress(inp: Inputs, base: int, allocator: Allocator.Controller) returns (ok: bool, after: Inputs)
    requires Labelled(inp.services, inp.pods) && allocator.pool == Allocator.Ingress(base, IndexOf(inp))
    requires WellFormed(allocator.db) && NamedAfterOwner(allocator.db.objs)
    modifies allocator
    ensures WellFormed(allocator.db) && NamedAfterOwner(allocator.db.objs)
    ensures after == inp.(ingress := map n | n in allocator.db.objs :: allocator.db.objs[n].value)
    ensures ok ==> exists want :: Settled(after, base, want, allocator.db.objs)
    ensures !ok ==> exists s, p | s in inp.services && p in inp.pods ::
              Wants(base, IndexOf(inp), s, p) && PairName(s.name, p.name) !in allocator.db.objs
  {
    hide Allocator.Placeable, Allocator.Clean, Allocator.Full, Allocator.Survives;
    hide NamedAfterOwner, Labelled, WantedFor, WellFormed, Wants, PairName, Allocator.Minted;
    ghost var start := allocator.db;
    var want := Wanted(inp.services, inp.pods, base, IndexOf(inp));
    WantedPlaceable(inp, base, want);
    ok := allocator.Reconcile(want);
    PassKeepsNames(inp.services, inp.pods, base, IndexOf(inp), want, start.objs, allocator.db.objs, start.rev);
    after := inp.(ingress := map n | n in allocator.db.objs :: allocator.db.objs[n].value);
    if ok {
      assert Settled(after, base, want, allocator.db.objs);
    } else {
      MissingPair(inp, base, want, allocator.db.objs);
    }
  }

  lemma MissingPair(inp: Inputs, base: int, want: map<string, Allocator.Spec>, objs: Allocator.Allocs)
    requires WantedFor(inp.services, inp.pods, base, IndexOf(inp), want) && exists n | n in want :: n !in objs
    ensures exists s, p | s in inp.services && p in inp.pods ::
              Wants(base, IndexOf(inp), s, p) && PairName(s.name, p.name) !in objs
  {
    hide Wants, PairName, IndexOf;
    var n :| n in want && n !in objs;
    var s, p :| Origin(inp.services, inp.pods, base, IndexOf(inp), n, s, p);
  }

  /** At the fixpoint an allocation is a selected pair on an indexed node, and says so. */
  lemma AllocationOrigin(inp: Inputs, base: int, want: map<string, Allocator.Spec>, objs: Allocator.Allocs, n: string)
      returns (s: Service, p: Pod)
    requires Settled(inp, base, want, objs) && n in inp.ingress
    ensures Origin(inp.services, inp.pods, base, IndexOf(inp), n, s, p)
    ensures inp.ingress[n] == Allocator.Alloc(s.name, p.name, p.node, Some(PortOf(inp.ingress, n)))
    ensures PortOf(inp.ingress, n) > 0
  {
    hide Wants, PairName, DotFree, IndexOf;
    s, p :| Origin(inp.services, inp.pods, base, IndexOf(inp), n, s, p);
    assert want[n] == SpecOf(s, p);
    var a := objs[n].value;
    assert Allocator.Sound(Allocator.Ingress(base, IndexOf(inp)), want[n], a);
    assert s in inp.services && DotFree(s.name);
    PairNameInjective(a.service, a.owner, s.name, p.name);
  }

  lemma PortsDistinct(inp: Inputs, base: int, want: map<string, Allocator.Spec>, objs: Allocator.Allocs, n: string,
                      m: string)
    requires Settled(inp, base, want, objs) && n in inp.ingress && m in inp.ingress && n != m
    ensures PortOf(inp.ingress, n) != PortOf(inp.ingress, m)
  {
    hide WantedFor, NamedAfterOwner, Labelled, IndexOf;
    assert objs[n].value.addr.Some? && objs[m].value.addr.Some?;
  }

  /** A selected, addressed instance on an indexed node has its listener, forwarding to its own address. */
  lemma ListenerForPair(inp: Inputs, base: int, want: map<string, Allocator.Spec>, objs: Allocator.Allocs, s: Service,
                        p: Pod)
    requires Settled(inp, base, want, objs) && s in inp.services && p in inp.pods && p.ip != ""
    requires PairName(s.name, p.name) in inp.ingress
    ensures var n := PairName(s.name, p.name);
            ListenerOf(inp, p.node, n) == [Listener(s.name, PortOf(inp.ingress, n), p.ip, s.targetPort)]
            && inp.ingress[n].node == p.node
  {
    hide Wants, WantedFor, NamedAfterOwner, PairName, IndexOf, PortOf, Allocator.Repaired;
    var n := PairName(s.name, p.name);
    var t, q := AllocationOrigin(inp, base, want, objs, n);
    SameName(inp.services, inp.pods, s, t, p, q);
    var i :| 0 <= i < |inp.services| && inp.services[i] == s;
    var k :| 0 <= k < |inp.pods| && inp.pods[k] == p;
    IpOfPod(inp.pods, k);
    TargetOfService(inp.services, i);
  }

  // ---------------------------------------------------------------- routing

  type Cluster = map<string, seq<Listener>>

  /** Every node's listeners, as its snapshot carries them. */
  ghost predicate Serving(inp: Inputs, net: Cluster) {
    net.Keys == Nodes(inp) && forall m | m in net :: ListenersOf(inp, m, net[m])
  }

  ghost predicate Holds(net: Cluster, m: string, i: int, port: int) {
    m in net && 0 <= i < |net[m]| && net[m][i].port == port
  }

  /** Where a dial ends up: a hop is answered by whichever listener holds the port. */
  ghost predicate Reaches(net: Cluster, lb: Lb, ip: string, port: int) {
    if !lb.hop then ip == lb.host && port == lb.port
    else exists m, i :: Holds(net, m, i, lb.port) && ip == net[m][i].podIp && port == net[m][i].targetPort
  }

  lemma ListenersMembers(inp: Inputs, m: string, ls: seq<Listener>, l: Listener)
    requires ListenersOf(inp, m, ls)
    ensures l in ls <==> exists n | n in inp.ingress :: l in ListenerOf(inp, m, n)
  {
    hide ListenerOf;
    var f := (n: string) => ListenerOf(inp, m, n);
    var names :| Enumerates(names, inp.ingress.Keys) && ls == Collect(names, n => ListenerOf(inp, m, n));
    assert ls == Collect(names, f);
    CollectMembers(names, f, l);
  }

  /** Every served listener comes from one allocation of its node. */
  lemma ListenerSource(inp: Inputs, net: Cluster, m: string, i: nat) returns (n: string)
    requires Serving(inp, net) && m in net && i < |net[m]|
    ensures n in inp.ingress && ListenerOf(inp, m, n) == [net[m][i]]
  {
    hide ListenerOf, Nodes, ListenersOf;
    ListenersMembers(inp, m, net[m], net[m][i]);
    n :| n in inp.ingress && net[m][i] in ListenerOf(inp, m, n);
    AtMostOne(inp, m, n);
  }

  lemma AtMostOne(inp: Inputs, m: string, n: string)
    ensures |ListenerOf(inp, m, n)| <= 1
    ensures forall l | l in ListenerOf(inp, m, n) ::
        l.port == PortOf(inp.ingress, n) && n in inp.ingress && inp.ingress[n].node == m
  {}

  /** Within a node no port is listened on twice. */
  lemma NodePortsUnique(inp: Inputs, base: int, want: map<string, Allocator.Spec>, objs: Allocator.Allocs, m: string,
                        ls: seq<Listener>)
    requires Settled(inp, base, want, objs) && ListenersOf(inp, m, ls)
    ensures forall i, j | 0 <= i < j < |ls| :: ls[i].port != ls[j].port
  {
    hide ListenerOf, PortOf, Settled;
    var f := (n: string) => ListenerOf(inp, m, n);
    var names :| Enumerates(names, inp.ingress.Keys) && ls == Collect(names, n => ListenerOf(inp, m, n));
    forall n ensures |f(n)| <= 1 {
      AtMostOne(inp, m, n);
    }
    forall i, j, y, z | 0 <= i < j < |names| && y in f(names[i]) && z in f(names[j]) ensures y.port != z.port {
      LessTotal(names[i], names[j]);
      AtMostOne(inp, m, names[i]);
      AtMostOne(inp, m, names[j]);
      PortsDistinct(inp, base, want, objs, names[i], names[j]);
    }
    CollectUnique(names, f, (l: Listener) => l.port);
    assert Collect(names, f) == ls;
  }

  /** At the fixpoint no ingress port is listened on twice anywhere in the cluster. */
  lemma OneHolder(inp: Inputs, base: int, want: map<string, Allocator.Spec>, objs: Allocator.Allocs, net: Cluster,
                  m: string, i: int, m': string, i': int, port: int)
    requires Settled(inp, base, want, objs) && Serving(inp, net)
    requires Holds(net, m, i, port) && Holds(net, m', i', port)
    ensures m == m' && i == i'
  {
    hide Settled, ListenerOf, PortOf, ListenersOf, Nodes;
    var n := ListenerSource(inp, net, m, i);
    var n' := ListenerSource(inp, net, m', i');
    AtMostOne(inp, m, n);
    AtMostOne(inp, m', n');
    assert net[m][i] in ListenerOf(inp, m, n) && net[m'][i'] in ListenerOf(inp, m', n');
    if n != n' {
      PortsDistinct(inp, base, want, objs, n, n');
    }
    NodePortsUnique(inp, base, want, objs, m, net[m]);
  }

  /** A dialable remote endpoint's port is served on the owning node, by its own pair's listener. */
  lemma OwnerHolds(inp: Inputs, base: int, want: map<string, Allocator.Spec>, objs: Allocator.Allocs, net: Cluster,
                   s: Service, p: Pod)
      returns (i: nat)
    requires Settled(inp, base, want, objs) && Serving(inp, net)
    requires s in inp.services && p in inp.pods && p.node != "" && p.ip != "" && PairName(s.name, p.name) in inp.ingress
    ensures Holds(net, p.node, i, PortOf(inp.ingress, PairName(s.name, p.name)))
    ensures net[p.node][i] == Listener(s.name, PortOf(inp.ingress, PairName(s.name, p.name)), p.ip, s.targetPort)
  {
    var n := PairName(s.name, p.name);
    ListenerForPair(inp, base, want, objs, s, p);
    assert p.node in net;
    hide Settled, ListenerOf, PortOf, PairName, Nodes, ListenersOf;
    var l := ListenerOf(inp, p.node, n)[0];
    ListenersMembers(inp, p.node, net[p.node], l);
    assert l in ListenerOf(inp, p.node, n);
    i :| 0 <= i < |net[p.node]| && net[p.node][i] == l;
  }

  /**
   Routing refines direct dialling: whatever a node's load assignment shows
   for an endpoint, the dial reaches the endpoint's own address and port and
   nothing else, health unchanged; a hop goes to the owner's machine.
   */
  lemma RoutingRefinesDialling(inp: Inputs, base: int, want: map<string, Allocator.Spec>, objs: Allocator.Allocs,
                               net: Cluster,
                               node: string, s: Service, ep: Endpoint, lb: Lb, ip: string, port: int)
    requires Settled(inp, base, want, objs) && Serving(inp, net)
    requires s in inp.services && ep in GroupOf(inp, s) && lb in Render(node, ep)
    ensures Reaches(net, lb, ip, port) <==> ip == ep.ip && port == ep.port
    ensures lb.health == ep.health
    ensures lb.hop ==> ep.node != node && lb.host == Advertise(inp, ep.node)
    ensures lb.hop ==> exists i :: Holds(net, ep.node, i, lb.port)
    ensures lb.hop ==>
        forall m, i, m', i' | Holds(net, m, i, lb.port) && Holds(net, m', i', lb.port) :: m == m' && i == i'
  {
    hide Settled, Serving, Holds, PairName;
    var p := GroupMember(inp, s, ep);
    if lb.hop {
      var i := OwnerHolds(inp, base, want, objs, net, s, p);
      forall m, j, m', j' | Holds(net, m, j, lb.port) && Holds(net, m', j', lb.port) ensures m == m' && j == j' {
        OneHolder(inp, base, want, objs, net, m, j, m', j', lb.port);
      }
      HolderInRange(net, p.node, i, lb.port);
    }
  }

  lemma HolderInRange(net: Cluster, m: string, i: int, port: int)
    requires Holds(net, m, i, port)
    ensures m in net && 0 <= i < |net[m]|
  {}

  lemma GroupMember(inp: Inputs, s: Service, ep: Endpoint) returns (p: Pod)
    requires ep in GroupOf(inp, s)
    ensures p in inp.pods && EndpointOf(inp, s, p) == [ep] && Selects(s, p) && p.ip != "" && p.ip == ep.ip
    ensures p.node == ep.node
  {
    CollectMembers(inp.pods, p => EndpointOf(inp, s, p), ep);
    p :| p in inp.pods && ep in EndpointOf(inp, s, p);
  }

  /**
   An endpoint is left out of a node's assignment exactly when it is remote and its node is unindexed or unadvertised.
   */
  lemma LeftOutIff(inp: Inputs, base: int, want: map<string, Allocator.Spec>, objs: Allocator.Allocs,
                   node: string, s: Service, ep: Endpoint)
    requires Settled(inp, base, want, objs) && s in inp.services && ep in GroupOf(inp, s)
    ensures Render(node, ep) == [] <==>
        && ep.node != "" && ep.node != node
        && (Advertise(inp, ep.node) == ""
            || Allocator.NodeRange(base, if ep.node in inp.records then inp.records[ep.node].index else 0).None?)
  {
    hide Selects, Labelled, NamedAfterOwner, Allocator.NodeRange;
    var p := GroupMember(inp, s, ep);
    var n := PairName(s.name, p.name);
    if n in inp.ingress {
      var t, q := AllocationOrigin(inp, base, want, objs, n);
      SameName(inp.services, inp.pods, s, t, p, q);
    } else {
      assert objs.Keys == want.Keys;
      assert !Wants(base, IndexOf(inp), s, p);
    }
  }

  /** The same on stored fields: at the fixpoint a pair holds a port exactly when it is selected on an indexed node. */
  lemma AllocatedIff(inp: Inputs, base: int, want: map<string, Allocator.Spec>, objs: Allocator.Allocs, s: Service,
                     p: Pod)
    requires Settled(inp, base, want, objs) && s in inp.services && p in inp.pods
    ensures s.name + "." + p.name in inp.ingress <==>
        && LabelsFit(s, p) && p.node != "" && p.node in inp.records
        && Allocator.NodeRange(base, inp.records[p.node].index).Some?
  {
    hide Selects, LabelsFit, Labelled, NamedAfterOwner;
    SelectsFit(s, p);
    Allocator.NoIndexNoRange(base, 0);
    hide Allocator.NodeRange;
    var n := PairName(s.name, p.name);
    if n in inp.ingress {
      var t, q := AllocationOrigin(inp, base, want, objs, n);
      SameName(inp.services, inp.pods, s, t, p, q);
    } else {
      assert objs.Keys == want.Keys;
      assert !Wants(base, IndexOf(inp), s, p);
    }
  }

  /** And who is shown to a node at the fixpoint: every READY or DRAINING instance it could dial. */
  lemma ShownIff(inp: Inputs, base: int, want: map<string, Allocator.Spec>, objs: Allocator.Allocs, node: string,
                 s: Service, p: Pod)
    requires Settled(inp, base, want, objs) && s in inp.services && p in inp.pods
    ensures (exists lb :: ShownAs(inp, node, s, p, lb)) <==>
        && LabelsFit(s, p) && p.ip != "" && (p.phase == Instances.Ready || p.phase == Instances.Draining)
        && (p.node == "" || p.node == node
            || (p.node in inp.records && inp.records[p.node].advertise != ""
                && Allocator.NodeRange(base, inp.records[p.node].index).Some?))
  {
    hide Settled, LabelsFit, Allocator.NodeRange;
    AllocatedIff(inp, base, want, objs, s, p);
    var health := if p.phase == Instances.Ready then Health.Ready else Health.Draining;
    var n := s.name + "." + p.name;
    if LabelsFit(s, p) && p.ip != "" && (p.phase == Instances.Ready || p.phase == Instances.Draining) {
      if p.node == "" || p.node == node {
        assert ShownAs(inp, node, s, p, Lb(p.ip, s.targetPort, false, health));
      } else if n in inp.ingress && p.node in inp.records && inp.records[p.node].advertise != "" {
        AllocatedPort(inp, base, want, objs, n);
        assert ShownAs(inp, node, s, p, Lb(inp.records[p.node].advertise, PortOf(inp.ingress, n), true, health));
      }
    }
  }

  lemma AllocatedPort(inp: Inputs, base: int, want: map<string, Allocator.Spec>, objs: Allocator.Allocs, n: string)
    requires Settled(inp, base, want, objs) && n in inp.ingress
    ensures inp.ingress[n].addr == Some(PortOf(inp.ingress, n)) && PortOf(inp.ingress, n) > 0
  {
    var s, p := AllocationOrigin(inp, base, want, objs, n);
  }

  /** Every recorded node is served, and every node an instance is bound to, recorded or not; no other is. */
  lemma ServedNodes(inp: Inputs, net: Cluster, m: string)
    requires Serving(inp, net)
    ensures m in net <==> m in inp.records || exists p | p in inp.pods :: p.node == m && m != ""
  {}

  /** A listener of node `m` on stored fields. */
  ghost predicate ListensAs(a: Allocator.Alloc, m: string, s: Service, p: Pod, l: Listener) {
    && a.node == m && a.service == s.name && a.owner == p.name && p.ip != ""
    && l.service == s.name && l.podIp == p.ip && l.targetPort == s.targetPort
    && l.port == if a.addr.Some? then a.addr.value else 0
  }

  /** A listener stands for an allocation of its node whose instance has an address and whose service is listed. */
  lemma ListensFor(inp: Inputs, m: string, ls: seq<Listener>, l: Listener)
    requires Labelled(inp.services, inp.pods) && ListenersOf(inp, m, ls)
    ensures l in ls <==> exists n, s, p | n in inp.ingress && s in inp.services && p in inp.pods ::
              ListensAs(inp.ingress[n], m, s, p, l)
  {
    hide Labelled, ListenersOf;
    ListenersMembers(inp, m, ls, l);
    forall n | n in inp.ingress
      ensures l in ListenerOf(inp, m, n) <==> exists s, p | s in inp.services && p in inp.pods ::
                ListensAs(inp.ingress[n], m, s, p, l)
    {
      ListenerFields(inp, m, n, l);
    }
  }

  lemma ListenerFields(inp: Inputs, m: string, n: string, l: Listener)
    requires Labelled(inp.services, inp.pods) && n in inp.ingress
    ensures l in ListenerOf(inp, m, n) <==> exists s, p | s in inp.services && p in inp.pods ::
              ListensAs(inp.ingress[n], m, s, p, l)
  {
    var a := inp.ingress[n];
    IpFound(inp.pods, a.owner);
    TargetFound(inp.services, a.service);
    forall i | 0 <= i < |inp.services|
      ensures TargetPortOf(inp.services, inp.services[i].name) == Some(inp.services[i].targetPort)
    {
      TargetOfService(inp.services, i);
    }
    forall k | 0 <= k < |inp.pods| ensures IpOf(inp.pods, inp.pods[k].name) == inp.pods[k].ip {
      IpOfPod(inp.pods, k);
    }
  }

  lemma {:induction false} IpFound(pods: seq<Pod>, name: string)
    ensures IpOf(pods, name) != "" ==> exists p | p in pods :: p.name == name && p.ip == IpOf(pods, name)
  {
    if pods != [] && pods[|pods| - 1].name != name {
      IpFound(pods[..|pods| - 1], name);
    }
  }

  lemma {:induction false} TargetFound(services: seq<Service>, name: string)
    ensures var t := TargetPortOf(services, name);
            t.Some? ==> exists s | s in services :: s.name == name && s.targetPort == t.value
  {
    if services != [] && services[|services| - 1].name != name {
      TargetFound(services[..|services| - 1], name);
    }
  }

  // ---------------------------------------------------------------- identities

  /** The first listed service that selects the instance. */
  ghost predicate FirstSelecting(services: seq<Service>, p: Pod, name: Option<string>) {
    if name.None? then forall s | s in services :: !Selects(s, p)
    else exists i | 0 <= i < |services| :: services[i].name == name.value && Selects(services[i], p)
           && forall j | 0 <= j < i :: !Selects(services[j], p)
  }

  ghost predicate Selected(services: seq<Service>, p: Pod) {
    exists s | s in services :: Selects(s, p)
  }

  /** Among the first `n` instances, `k` is the last selected one with its address. */
  ghost predicate LastHolder(inp: Inputs, n: nat, ip: string, k: nat) {
    && n <= |inp.pods| && k < n && inp.pods[k].ip == ip && Selected(inp.services, inp.pods[k])
    && (forall j | k < j < n && inp.pods[j].ip == ip :: !Selected(inp.services, inp.pods[j]))
  }

  /** The address belongs to `service` by its last holder among the first `n` instances. */
  ghost predicate Belongs(inp: Inputs, n: nat, ip: string, service: string) {
    exists k: nat :: LastHolder(inp, n, ip, k) && FirstSelecting(inp.services, inp.pods[k], Some(service))
  }

  ghost predicate Identified(inp: Inputs, n: nat, ids: map<string, string>) {
    && n <= |inp.pods|
    && (forall i | 0 <= i < n && inp.pods[i].ip != "" && Selected(inp.services, inp.pods[i]) :: inp.pods[i].ip in ids)
    && (forall ip | ip in ids :: ip != "" && Belongs(inp, n, ip, ids[ip]))
  }

  lemma SelectedNamed(services: seq<Service>, p: Pod, name: Option<string>)
    requires FirstSelecting(services, p, name)
    ensures name.Some? <==> Selected(services, p)
  {
    hide Selects;
  }

  lemma BelongsStill(inp: Inputs, n: nat, ip: string, service: string)
    requires n < |inp.pods| && Belongs(inp, n, ip, service)
    requires inp.pods[n].ip == ip ==> !Selected(inp.services, inp.pods[n])
    ensures Belongs(inp, n + 1, ip, service)
  {
    hide Selected, FirstSelecting;
    var k: nat :| LastHolder(inp, n, ip, k) && FirstSelecting(inp.services, inp.pods[k], Some(service));
    assert LastHolder(inp, n + 1, ip, k);
  }

  lemma BelongsNow(inp: Inputs, n: nat, service: string)
    requires n < |inp.pods| && FirstSelecting(inp.services, inp.pods[n], Some(service))
    ensures Belongs(inp, n + 1, inp.pods[n].ip, service)
  {
    SelectedNamed(inp.services, inp.pods[n], Some(service));
    hide Selected, FirstSelecting;
    assert LastHolder(inp, n + 1, inp.pods[n].ip, n);
  }

  lemma IdentifiedStep(inp: Inputs, n: nat, ids: map<string, string>, name: Option<string>)
    requires n < |inp.pods| && Identified(inp, n, ids)
    requires inp.pods[n].ip != "" ==> FirstSelecting(inp.services, inp.pods[n], name)
    ensures Identified(inp, n + 1,
                       if inp.pods[n].ip != "" && name.Some? then ids[inp.pods[n].ip := name.value] else ids)
  {
    hide Selected, FirstSelecting, Belongs;
    var p := inp.pods[n];
    var after := if p.ip != "" && name.Some? then ids[p.ip := name.value] else ids;
    if p.ip != "" {
      SelectedNamed(inp.services, p, name);
    }
    forall ip | ip in after ensures ip != "" && Belongs(inp, n + 1, ip, after[ip]) {
      if ip == p.ip && name.Some? {
        BelongsNow(inp, n, name.value);
      } else {
        BelongsStill(inp, n, ip, ids[ip]);
      }
    }
  }

  /**
   An address belongs to the first service selecting the instance that holds
   it, whatever the instance's phase; of several the last listed one counts.
   */
  method BuildIPIdentity(inp: Inputs) returns (ids: map<string, string>)
    ensures Identified(inp, |inp.pods|, ids)
  {
    hide Identified, FirstSelecting;
    ids := map[];
    NobodyIdentified(inp);
    for k := 0 to |inp.pods|
      invariant Identified(inp, k, ids)
    {
      var p := inp.pods[k];
      var name := None;
      if p.ip != "" {
        name := FirstService(inp.services, p);
      }
      IdentifiedStep(inp, k, ids, name);
      if p.ip != "" && name.Some? {
        ids := ids[p.ip := name.value];
      }
    }
  }

  lemma NobodyIdentified(inp: Inputs)
    ensures Identified(inp, 0, map[])
  {}

  method FirstService(services: seq<Service>, p: Pod) returns (name: Option<string>)
    ensures FirstSelecting(services, p, name)
  {
    for i := 0 to |services|
      invariant forall j | 0 <= j < i :: !Selects(services[j], p)
    {
      if Selects(services[i], p) {
        return Some(services[i].name);
      }
    }
    return None;
  }
}
