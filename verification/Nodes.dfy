/** The node controller: lost nodes, finished drains and pending deletes, decided on a possibly stale list. */
module Nodes {
  import opened Store
  import opened Instances

  datatype NodePhase = Unknown | Up | NotReady | DrainingNode

  /** A node record; `pendingDelete` is the label a delete request leaves. */
  datatype Record = Record(phase: NodePhase, cordoned: bool, pendingDelete: bool, heartbeat: int, count: int)

  // seconds
  const HEARTBEAT_TIMEOUT: int := 15
  const EVACUATE_AFTER: int := 30

  /** The record after one look: lost, drain re-asserted, drain finished, or as it was. */
  function Transition(r: Record, silence: int, count: int): Record {
    if silence > HEARTBEAT_TIMEOUT && (r.phase == Up || r.phase == DrainingNode) then r.(phase := NotReady)
    else if r.pendingDelete && (r.phase == Up || !r.cordoned) then r.(phase := DrainingNode, cordoned := true)
    else if r.phase == DrainingNode && count == 0 then r.(phase := Up)
    else r
  }

  /** Seconds since the last heartbeat, zero before the first. */
  function Silence(r: Record, now: int): int {
    if r.heartbeat > 0 then now - r.heartbeat else 0
  }

  /** Silent past the grace, so its instances are given up. */
  predicate Lost(r: Record, count: int, now: int) {
    && !(r.pendingDelete && count == 0) && Transition(r, Silence(r, now), count).phase == NotReady
    && Silence(r, now) > HEARTBEAT_TIMEOUT + EVACUATE_AFTER
  }

  /** A record the controller leaves alone at this silence and count. */
  predicate Settled(r: Record, silence: int, count: int) {
    Transition(r, silence, count) == r
  }

  /**
   Repeated passes settle within three moves, a cordon is never lifted, and a
   node pending deletion settles where nothing new is scheduled on it.
   */
  lemma PhaseSettles(r: Record, silence: int, count: int)
    requires !(r.pendingDelete && count == 0)
    ensures var f := Transition(Transition(Transition(r, silence, count), silence, count), silence, count);
            && Settled(f, silence, count) && f.pendingDelete == r.pendingDelete
            && (r.cordoned ==> f.cordoned)
            && (r.pendingDelete ==> f.cordoned && f.phase != Up)
            && (silence > HEARTBEAT_TIMEOUT ==> f.phase != Up && f.phase != DrainingNode)
  {}

  /**
   Where one look leaves a record, phase by phase. A silent node is NotReady
   before anything else is considered; a pending delete keeps it draining and
   cordoned; a drain that emptied the node makes it Up again, still cordoned.
   */
  lemma TransitionMeans(r: Record, silence: int, count: int)
    ensures var f, gone := Transition(r, silence, count), silence > 15 && (r.phase == Up || r.phase == DrainingNode);
            var redrain := r.pendingDelete && (r.phase == Up || !r.cordoned);
            && f.heartbeat == r.heartbeat && f.count == r.count && f.pendingDelete == r.pendingDelete
            && (f.cordoned <==> r.cordoned || (r.pendingDelete && !gone))
            && (f.phase == NotReady <==> gone || (r.phase == NotReady && !redrain))
            && (f.phase == DrainingNode <==> !gone && (redrain || (r.phase == DrainingNode && count != 0)))
            && (f.phase == Up <==>
                  !gone && !redrain && (r.phase == Up || (r.phase == DrainingNode && count == 0)))
            && (f.phase == Unknown <==> r.phase == Unknown && !redrain)
  {}

  /** A node is given up once it has been silent for more than 45 seconds, and never before its first heartbeat. */
  lemma LostMeans(r: Record, count: int, now: int)
    ensures Lost(r, count, now) <==>
        && r.heartbeat > 0 && now - r.heartbeat > 45 && !(r.pendingDelete && count == 0)
        && (r.phase == Up || r.phase == DrainingNode || (r.phase == NotReady && (r.pendingDelete ==> r.cordoned)))
  {}

  /** Silence counts from the last heartbeat, and there is none before the first. */
  lemma SilenceMeans(r: Record, now: int)
    ensures r.heartbeat <= 0 ==> Silence(r, now) == 0
    ensures r.heartbeat > 0 ==> r.heartbeat + Silence(r, now) == now
  {}

  class NodeController {
    var nodes: Db<string, Record>
    var instances: Db<string, Instance>

    constructor (nodes: Db<string, Record>, instances: Db<string, Instance>)
      ensures this.nodes == nodes && this.instances == instances
    {
      this.nodes, this.instances := nodes, instances;
    }

    /**
     One listed node. The record goes exactly if it was listed as pending
     deletion, empty, and is still that version; the node's instances go
     exactly if it is lost and they are still as listed.
     */
    method ReconcileNode(name: string, v: Version<Record>, count: nat, now: int, listed: seq<Listed>)
      requires WellFormed(nodes) && WellFormed(instances)
      modifies this
      ensures WellFormed(nodes) && WellFormed(instances)
      ensures Evolves(old(nodes), nodes) && Evolves(old(instances), instances)
      ensures forall k | k in old(nodes.objs) ::
                k !in nodes.objs <==>
                  k == name && v.value.pendingDelete && count == 0 && Pinned(old(nodes.objs), k, v.rev)
      ensures forall k | k in nodes.objs && (k !in old(nodes.objs) || nodes.objs[k] != old(nodes.objs)[k]) ::
                k == name && Pinned(old(nodes.objs), k, v.rev)
                && nodes.objs[k].value == Transition(v.value, Silence(v.value, now), count).(count := count)
      ensures Pinned(old(nodes.objs), name, v.rev) && !(v.value.pendingDelete && count == 0) ==>
                name in nodes.objs
                && (nodes.objs[name] == old(nodes.objs)[name] <==>
                      Settled(v.value, Silence(v.value, now), count) && v.value.count == count)
      ensures forall k | k in instances.objs :: k in old(instances.objs) && instances.objs[k] == old(instances.objs)[k]
      ensures forall k | k in old(instances.objs) ::
                k !in instances.objs <==>
                  Lost(v.value, count, now)
                  && exists l | l in listed ::
                       l.value.name == k && l.value.node == name && Current(old(instances.objs), l)
    {
      if v.value.pendingDelete && count == 0 {
        if Pinned(nodes.objs, name, v.rev) {
          nodes := Deleted(nodes, name);
        }
        return;
      }
      var silence := Silence(v.value, now);
      var r := Transition(v.value, silence, count);
      var dirty := r != v.value;
      if count != r.count {
        r := r.(count := count);
        dirty := true;
      }
      if dirty && Pinned(nodes.objs, name, v.rev) {
        nodes := Written(nodes, name, r);
      }
      if r.phase == NotReady && silence > HEARTBEAT_TIMEOUT + EVACUATE_AFTER {
        Evacuate(name, listed);
      }
    }

    /** Deletes the lost node's instances, each pinned to its listed revision. */
    method Evacuate(node: string, listed: seq<Listed>)
      requires WellFormed(instances)
      modifies this`instances
      ensures WellFormed(instances) && Evolves(old(instances), instances)
      ensures forall k | k in instances.objs :: k in old(instances.objs) && instances.objs[k] == old(instances.objs)[k]
      ensures forall k | k in old(instances.objs) ::
                k !in instances.objs <==>
                  exists l | l in listed :: l.value.name == k && l.value.node == node && Current(old(instances.objs), l)
    {
      for i := 0 to |listed|
        invariant WellFormed(instances) && Evolves(old(instances), instances)
        invariant forall k | k in instances.objs ::
            k in old(instances.objs) && instances.objs[k] == old(instances.objs)[k]
        invariant forall k | k in old(instances.objs) ::
                    k !in instances.objs <==>
                      exists j | 0 <= j < i :: listed[j].value.name == k && listed[j].value.node == node
                                               && Current(old(instances.objs), listed[j])
      {
        var l := listed[i];
        if l.value.node == node && Current(instances.objs, l) {
          EvolvesTransitive(old(instances), instances, Deleted(instances, l.value.name));
          instances := Deleted(instances, l.value.name);
        }
      }
    }
  }

  /**
   Under any interleaving of writers: a delete decided on the list of moment
   `i` and committed at moment `j` removes a version that carries the label.
   */
  lemma RemovedVersionLabelled(h: seq<Db<string, Record>>, i: nat, j: nat, k: string)
    requires History(h) && i <= j < |h| && WellFormed(h[i]) && k in h[i].objs
    requires h[i].objs[k].value.pendingDelete && Pinned(h[j].objs, k, h[i].objs[k].rev)
    ensures h[j].objs[k].value.pendingDelete
    ensures forall m | i <= m <= j :: k in h[m].objs && h[m].objs[k].value.pendingDelete
  {
    forall m | i <= m <= j ensures k in h[m].objs && h[m].objs[k] == h[i].objs[k] {
      PinnedVersion(h, i, m, j, k);
    }
  }

  /** A re-apply in between cancels the delete: the pinned revision is gone for good. */
  lemma ReapplyCancelsDelete(h: seq<Db<string, Record>>, i: nat, m: nat, j: nat, k: string)
    requires History(h) && i <= m <= j < |h| && WellFormed(h[i]) && k in h[i].objs
    requires k in h[m].objs ==> h[m].objs[k] != h[i].objs[k]
    ensures !Pinned(h[j].objs, k, h[i].objs[k].rev)
  {
    if Pinned(h[j].objs, k, h[i].objs[k].rev) {
      PinnedVersion(h, i, m, j, k);
    }
  }
}
