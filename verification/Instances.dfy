/** Instance objects as the control plane stores them. */
module Instances {
  import opened Store

  datatype Phase = Unspecified | Pending | Running | Ready | Draining | Failed | Terminating

  datatype Instance = Instance(
    name: string,
    uid: nat,
    created: int,
    workload: string,
    hash: string,          // template hash
    node: string,          // "" until the scheduler binds it
    phase: Phase,
    message: string,
    drainSeconds: int)

  type Listed = Version<Instance>
  type Objs = map<string, Listed>

  const DEFAULT_DRAIN_TIMEOUT_SECONDS := 30

  // why the scheduler could not place an instance, as its status message says it
  const MSG_NO_CAPACITY: string := "no ready schedulable node with free capacity"
  const PINNED_PREFIX: string := "pinned node "

  function DrainTimeout(i: Instance): (t: int)
    ensures t > 0
  {
    if i.drainSeconds > 0 then i.drainSeconds else DEFAULT_DRAIN_TIMEOUT_SECONDS
  }

  /** Phases that could put an endpoint back into service. */
  predicate ServingPhase(p: Phase) {
    p == Ready || p == Running || p == Pending
  }

  /** The listed version is still the stored one. */
  predicate Current(objs: Objs, l: Listed) {
    Pinned(objs, l.value.name, l.rev)
  }

  ghost predicate Named(objs: Objs) {
    forall n | n in objs :: objs[n].value.name == n
  }

  function Names(ls: seq<Listed>): set<string> {
    set l | l in ls :: l.value.name
  }

  predicate Distinct(ls: seq<Listed>) {
    |Names(ls)| == |ls|
  }

  /** `listed` is one List answer: every stored version once. */
  ghost predicate Lists(listed: seq<Listed>, objs: Objs) {
    && (forall l | l in listed :: l.value.name in objs && objs[l.value.name] == l)
    && Names(listed) == objs.Keys && Distinct(listed)
  }

  lemma NamesConcat(a: seq<Listed>, b: seq<Listed>)
    ensures Names(a + b) == Names(a) + Names(b)
  {
    assert forall l | l in a :: l in a + b;
    assert forall l | l in b :: l in a + b;
  }

  lemma DistinctAppend(ls: seq<Listed>, l: Listed)
    ensures Names(ls + [l]) == Names(ls) + {l.value.name}
    ensures Distinct(ls) && l.value.name !in Names(ls) ==> Distinct(ls + [l])
  {
    NamesConcat(ls, [l]);
    assert Names([l]) == {l.value.name};
  }

  lemma {:induction false} NamesAtMost(ls: seq<Listed>)
    ensures |Names(ls)| <= |ls|
  {
    if ls != [] {
      var k := |ls| - 1;
      NamesAtMost(ls[..k]);
      DistinctAppend(ls[..k], ls[k]);
      assert ls == ls[..k] + [ls[k]];
    }
  }

  /** The two halves of a list without repeats have none, and share no name. */
  lemma DistinctHalves(a: seq<Listed>, b: seq<Listed>)
    requires Distinct(a + b)
    ensures Distinct(a) && Distinct(b) && Names(a) !! Names(b)
  {
    NamesConcat(a, b);
    NamesAtMost(a);
    NamesAtMost(b);
    SizeOfUnion(Names(a), Names(b));
    assert Names(a) * Names(b) == {};
    assert forall n | n in Names(a) && n in Names(b) :: n in Names(a) * Names(b);
  }

  lemma SizeOfUnion(a: set<string>, b: set<string>)
    ensures |a + b| == |a| + |b| - |a * b|
  {}

  lemma DistinctPrefix(ls: seq<Listed>, k: nat)
    requires Distinct(ls) && k <= |ls|
    ensures Distinct(ls[..k]) && Names(ls[..k]) !! Names(ls[k..])
    ensures k < |ls| ==> ls[k].value.name !in Names(ls[..k])
  {
    assert ls == ls[..k] + ls[k..];
    DistinctHalves(ls[..k], ls[k..]);
    if k < |ls| {
      assert ls[k] in ls[k..];
    }
  }

  lemma NextName(ls: seq<Listed>, k: nat)
    requires Distinct(ls) && k < |ls|
    ensures ls[k].value.name !in Names(ls[..k]) && ls[k].value.name in Names(ls)
    ensures Names(ls[..k + 1]) == Names(ls[..k]) + {ls[k].value.name}
  {
    DistinctPrefix(ls, k);
    DistinctAppend(ls[..k], ls[k]);
    assert ls[..k + 1] == ls[..k] + [ls[k]];
    assert ls[k] in ls;
  }

  /** Reordering a list without repeats leaves it without repeats. */
  lemma DistinctPermutation(a: seq<Listed>, b: seq<Listed>)
    requires Distinct(a) && multiset(a) == multiset(b)
    ensures Distinct(b) && Names(b) == Names(a)
  {
    assert forall l :: l in a <==> l in multiset(a);
    assert forall l :: l in b <==> l in multiset(b);
    assert |multiset(a)| == |a| && |multiset(b)| == |b|;
    assert Names(b) == Names(a);
  }
}
