/**
 The endpoints engine.

 The engine keeps one versioned snapshot per node; a pass swaps freshly built
 content in, a departed node first decays to empty content and is dropped a
 pass later. Subscribers learn of changes through a one-slot channel each. `C` is
 a snapshot's content (instances and net config) under proto equality, `empty`
 the content of a node nothing is desired on.
 */
module Endpoints {
  import opened Store

  datatype Snap<C> = Snap(rev: nat, content: C)

  /** `subs` maps a subscription to whether a kick sits in its channel. */
  datatype Engine<C> = Engine(ready: bool, version: nat, nodes: map<string, Snap<C>>, subs: map<nat, bool>,
                              nextSub: nat)

  /** What Snapshot answers on a ready engine; an unknown node is empty at revision zero. */
  function Reported<C>(e: Engine<C>, empty: C, node: string): Snap<C> {
    if node in e.nodes then e.nodes[node] else Snap(0, empty)
  }

  ghost predicate Consistent<C>(e: Engine<C>) {
    && (forall n | n in e.nodes :: 0 < e.nodes[n].rev <= e.version)
    && (forall i | i in e.subs :: i < e.nextSub)
  }

  // ---------------------------------------------------------------- one pass

  /** Departed nodes that already decayed: gone for good. */
  function Dropped<C(==)>(e: Engine<C>, empty: C, built: map<string, C>): set<string> {
    set n | n in e.nodes && n !in built && e.nodes[n].content == empty
  }

  /** The content a node ends the pass with, departed nodes decaying to empty. */
  function Wanted<C>(empty: C, built: map<string, C>, n: string): C {
    if n in built then built[n] else empty
  }

  function Changed<C(==)>(e: Engine<C>, empty: C, built: map<string, C>): set<string> {
    set n | n in e.nodes.Keys + built.Keys - Dropped(e, empty, built)
      && !(n in e.nodes && e.nodes[n].content == Wanted(empty, built, n))
  }

  /** What a pass leaves: fresh revisions exactly on the changed nodes, a kick to everyone when anything moved. */
  ghost predicate Passed<C>(e: Engine<C>, empty: C, built: map<string, C>, f: Engine<C>) {
    var dropped, changed := Dropped(e, empty, built), Changed(e, empty, built);
    && f.ready && f.nextSub == e.nextSub
    && f.version == e.version + (if changed == {} then 0 else 1)
    && f.nodes.Keys == e.nodes.Keys + built.Keys - dropped
    && (forall n | n in f.nodes :: f.nodes[n].content == Wanted(empty, built, n))
    && (forall n | n in f.nodes :: f.nodes[n].rev == if n in changed then f.version else e.nodes[n].rev)
    && f.subs.Keys == e.subs.Keys
    && (forall i | i in f.subs :: f.subs[i] == (e.subs[i] || changed != {} || !e.ready))
  }

  class EndpointsEngine<C(==)> {
    const empty: C
    var ready: bool
    var version: nat
    var nodes: map<string, Snap<C>>
    var subs: map<nat, bool>
    var nextSub: nat

    constructor (empty: C)
      ensures this.empty == empty && State() == Engine(false, 0, map[], map[], 0)
    {
      this.empty, ready, version, nodes, subs, nextSub := empty, false, 0, map[], map[], 0;
    }

    ghost function State(): Engine<C>
      reads this
    {
      Engine(ready, version, nodes, subs, nextSub)
    }

    method Snapshot(node: string) returns (r: Option<Snap<C>>)
      ensures r == if ready then Some(Reported(State(), empty, node)) else None
    {
      if !ready {
        return None;
      }
      r := if node in nodes then Some(nodes[node]) else Some(Snap(0, empty));
    }

    method Subscribe() returns (id: nat)
      requires Consistent(State())
      modifies this`subs, this`nextSub
      ensures id !in old(subs) && Consistent(State())
      ensures id == old(nextSub) && nextSub == id + 1 && subs == old(subs)[id := false]
    {
      id := nextSub;
      nextSub := nextSub + 1;
      subs := subs[id := false];
    }

    /** The stream hears of no later pass, and nobody else's kick is touched. */
    method Cancel(id: nat)
      requires Consistent(State())
      modifies this`subs
      ensures Consistent(State()) && id !in subs
      ensures forall i | i != id :: (i in subs <==> i in old(subs)) && (i in subs ==> subs[i] == old(subs)[i])
    {
      subs := subs - {id};
    }

    /** Drops the nodes that already decayed and lets the other departed ones decay. */
    method Decay(built: map<string, C>) returns (all: map<string, C>, removed: set<string>)
      modifies this`nodes
      ensures removed == Dropped(old(State()), empty, built) && nodes == old(nodes) - removed
      ensures all == Target(old(State()), empty, built)
    {
      hide Decaying, Dropped, Target;
      ghost var e := State();
      all, removed := built, {};
      var todo := nodes.Keys;
      DecayStarts(e, empty, built);
      while todo != {}
        invariant Decaying(e, empty, built, todo, nodes, all, removed)
        decreases |todo|
      {
        var n :| n in todo;
        DecayStep(e, empty, built, todo, n, nodes, all, removed);
        if n !in built {
          if nodes[n].content == empty {
            nodes := nodes - {n};
            removed := removed + {n};
          } else {
            all := all[n := empty];
          }
        }
        todo := todo - {n};
      }
      DecayEnds(e, empty, built, nodes, all, removed);
    }

    /** The nodes whose content moved. */
    method Differing(all: map<string, C>) returns (changed: set<string>)
      ensures changed == Moved(nodes, all)
    {
      changed := {};
      var todo := all.Keys;
      while todo != {}
        invariant todo <= all.Keys && changed == Moved(nodes, all) - todo
        decreases |todo|
      {
        var n :| n in todo;
        todo := todo - {n};
        if !(n in nodes && nodes[n].content == all[n]) {
          changed := changed + {n};
        }
      }
    }

    /** One pass over freshly built content. */
    method Swap(built: map<string, C>) returns (changed: set<string>, removed: set<string>)
      modifies this
      ensures Passed(old(State()), empty, built, State())
      ensures changed == Changed(old(State()), empty, built) && removed == Dropped(old(State()), empty, built)
    {
      hide Passed, Changed, Dropped, Target, Moved;
      ghost var e := State();
      var all;
      all, removed := Decay(built);
      changed := Differing(all);
      ghost var kept := nodes;
      ChangedMoved(e, empty, built);
      UnmovedKeys(e, empty, built);
      if changed != {} {
        version := version + 1;
        nodes := map n | n in all :: if n in changed then Snap(version, all[n]) else nodes[n];
      }
      if changed != {} || !ready {
        subs := map i | i in subs :: true;
      }
      ready := true;
      SwapPasses(e, empty, built, State());
    }
  }

  lemma UnmovedKeys<C>(e: Engine<C>, empty: C, built: map<string, C>)
    ensures forall n | n in Target(e, empty, built) && n !in Changed(e, empty, built) ::
        n in e.nodes - Dropped(e, empty, built)
  {}

  lemma SwapPasses<C>(e: Engine<C>, empty: C, built: map<string, C>, f: Engine<C>)
    requires f.ready && f.nextSub == e.nextSub
    requires var all, kept, changed := Target(e, empty, built), e.nodes - Dropped(e, empty, built),
                                       Changed(e, empty, built);
             && f.version == e.version + (if changed == {} then 0 else 1)
             && (forall n | n in all && n !in changed :: n in kept)
             && f.nodes == (if changed == {} then kept
                            else map n | n in all :: if n in changed then Snap(f.version, all[n]) else kept[n])
             && f.subs == if changed != {} || !e.ready then (map i | i in e.subs :: true) else e.subs
    ensures Passed(e, empty, built, f)
  {
    assert forall n | n in Target(e, empty, built) && n !in Changed(e, empty, built) ::
        e.nodes[n].content == Wanted(empty, built, n);
  }

  /** The decay loop with `todo` still to visit. */
  ghost predicate Decaying<C>(e: Engine<C>, empty: C, built: map<string, C>, todo: set<string>,
                                  nodes: map<string, Snap<C>>, all: map<string, C>, removed: set<string>) {
    && todo <= e.nodes.Keys && removed == Dropped(e, empty, built) - todo && nodes == e.nodes - removed
    && all.Keys == built.Keys + (e.nodes.Keys - todo - Dropped(e, empty, built))
    && (forall n | n in all :: all[n] == Wanted(empty, built, n))
  }

  lemma DecayStarts<C>(e: Engine<C>, empty: C, built: map<string, C>)
    ensures Decaying(e, empty, built, e.nodes.Keys, e.nodes, built, {})
  {
    assert e.nodes - {} == e.nodes;
  }

  lemma DecayStep<C>(e: Engine<C>, empty: C, built: map<string, C>, todo: set<string>, n: string,
                     nodes: map<string, Snap<C>>, all: map<string, C>, removed: set<string>)
    requires n in todo && Decaying(e, empty, built, todo, nodes, all, removed)
    ensures n in nodes
    ensures n in built ==> Decaying(e, empty, built, todo - {n}, nodes, all, removed)
    ensures n !in built && nodes[n].content == empty ==>
        Decaying(e, empty, built, todo - {n}, nodes - {n}, all, removed + {n})
    ensures n !in built && nodes[n].content != empty ==>
        Decaying(e, empty, built, todo - {n}, nodes, all[n := empty], removed)
  {}

  lemma DecayEnds<C>(e: Engine<C>, empty: C, built: map<string, C>,
                     nodes: map<string, Snap<C>>, all: map<string, C>, removed: set<string>)
    requires Decaying(e, empty, built, {}, nodes, all, removed)
    ensures removed == Dropped(e, empty, built) && nodes == e.nodes - removed && all == Target(e, empty, built)
  {}

  /** Every node the pass keeps, with the content it ends with. */
  function Target<C(==)>(e: Engine<C>, empty: C, built: map<string, C>): map<string, C> {
    map n | n in e.nodes.Keys + built.Keys - Dropped(e, empty, built) :: Wanted(empty, built, n)
  }

  function Moved<C(==)>(nodes: map<string, Snap<C>>, all: map<string, C>): set<string> {
    set n | n in all && !(n in nodes && nodes[n].content == all[n])
  }

  lemma ChangedMoved<C>(e: Engine<C>, empty: C, built: map<string, C>)
    ensures Changed(e, empty, built) == Moved(e.nodes - Dropped(e, empty, built), Target(e, empty, built))
  {}
}
