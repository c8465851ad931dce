/**
 Engine passes interleaved with any number of WatchDesired streams.

 A stream subscribes first, then loops: look at the snapshot, send it if its
 revision differs from the last one sent, park until a kick. Passes may fall
 between any two of these steps. `sent` remembers the content of the last
 message; no guard reads it.
 */
module Watch {
  import opened Store
  import opened Endpoints

  datatype Pc<C> = Looking | Sending(snap: Snap<C>) | Parked

  datatype Watcher<C> = Watcher(node: string, pc: Pc<C>, lastSent: int, sent: Option<C>)

  datatype System<C> = System(engine: Engine<C>, watchers: map<nat, Watcher<C>>)

  datatype Action<C> =
    | Recompute(built: map<string, C>)
    | Connect(node: string)
    | Look(id: nat)
    | Send(id: nat)
    | Wake(id: nat)
    | Leave(id: nat)

  ghost predicate Enabled<C>(s: System<C>, a: Action<C>) {
    match a
    case Recompute(_) => true
    case Connect(_) => true
    case Look(id) => id in s.watchers && s.watchers[id].pc.Looking?
    case Send(id) => id in s.watchers && s.watchers[id].pc.Sending?
    case Wake(id) => id in s.watchers && s.watchers[id].pc.Parked? && id in s.engine.subs && s.engine.subs[id]
    case Leave(id) => id in s.watchers
  }

  /** What one watcher does on its own: look, send or wake. */
  function Stepped<C>(e: Engine<C>, empty: C, w: Watcher<C>): Watcher<C> {
    match w.pc
    case Looking =>
      var snap := Reported(e, empty, w.node);
      w.(pc := if e.ready && snap.rev != w.lastSent then Sending(snap) else Parked)
    case Sending(snap) => w.(pc := Parked, lastSent := snap.rev, sent := Some(snap.content))
    case Parked => w.(pc := Looking)
  }

  ghost predicate Next<C>(empty: C, s: System<C>, a: Action<C>, t: System<C>) {
    Enabled(s, a) &&
    match a
    case Recompute(built) => t.watchers == s.watchers && Passed(s.engine, empty, built, t.engine)
    case Connect(node) =>
      && t.engine == s.engine.(subs := s.engine.subs[s.engine.nextSub := false], nextSub := s.engine.nextSub + 1)
      && t.watchers == s.watchers[s.engine.nextSub := Watcher(node, Looking, -1, None)]
    case Look(id) => t == s.(watchers := s.watchers[id := Stepped(s.engine, empty, s.watchers[id])])
    case Send(id) => t == s.(watchers := s.watchers[id := Stepped(s.engine, empty, s.watchers[id])])
    case Wake(id) =>
      && t.engine == s.engine.(subs := s.engine.subs[id := false])
      && t.watchers == s.watchers[id := Stepped(s.engine, empty, s.watchers[id])]
    case Leave(id) => t == System(s.engine.(subs := s.engine.subs - {id}), s.watchers - {id})
  }

  /** The engine of a fresh klited: not ready, nobody watching. */
  function Boot<C>(): System<C> {
    System(Engine(false, 0, map[], map[], 0), map[])
  }

  ghost predicate Run<C>(empty: C, tr: seq<System<C>>, acts: seq<Action<C>>) {
    && |tr| == |acts| + 1 && tr[0] == Boot()
    && (forall i | 0 <= i < |acts| :: Next(empty, tr[i], acts[i], tr[i + 1]))
  }

  // ---------------------------------------------------------------- the invariant

  /** A message that may still carry a node's current revision carries its content too. */
  ghost predicate Faithful<C>(e: Engine<C>, empty: C, node: string, rev: int, content: C) {
    && 0 <= rev <= e.version
    && (rev == 0 ==> content == empty)
    && (node in e.nodes && e.nodes[node].rev == rev ==> e.nodes[node].content == content)
  }

  ghost predicate WatcherInv<C>(e: Engine<C>, empty: C, id: nat, w: Watcher<C>) {
    && id in e.subs
    && (w.sent.None? <==> w.lastSent == -1)
    && (w.sent.Some? ==> Faithful(e, empty, w.node, w.lastSent, w.sent.value))
    && (w.pc.Sending? ==> e.ready && Faithful(e, empty, w.node, w.pc.snap.rev, w.pc.snap.content))
    && (w.pc.Sending? ==> w.pc.snap.rev != w.lastSent)
    && (!e.subs[id] ==>
        && (w.pc.Sending? ==> w.pc.snap.content == Reported(e, empty, w.node).content)
        && (w.pc.Parked? && e.ready ==> w.sent == Some(Reported(e, empty, w.node).content)))
  }

  ghost predicate Inv<C>(empty: C, s: System<C>) {
    && Consistent(s.engine)
    && (forall id | id in s.watchers :: WatcherInv(s.engine, empty, id, s.watchers[id]))
  }

  /** What `e` held of `f`'s nodes: everything else carries a revision `e` never issued. */
  ghost predicate Later<C>(e: Engine<C>, f: Engine<C>) {
    && e.version <= f.version
    && (e.ready ==> f.ready)
    && (forall n | n in f.nodes :: f.nodes[n].rev > e.version || (n in e.nodes && f.nodes[n] == e.nodes[n]))
  }

  lemma PassLater<C>(e: Engine<C>, empty: C, built: map<string, C>, f: Engine<C>)
    requires Consistent(e) && Passed(e, empty, built, f)
    ensures Consistent(f) && Later(e, f)
  {
    var changed := Changed(e, empty, built);
    forall n | n in f.nodes
      ensures 0 < f.nodes[n].rev <= f.version
      ensures f.nodes[n].rev > e.version || (n in e.nodes && f.nodes[n] == e.nodes[n])
    {
      if n in changed {
        assert changed != {};
      } else {
        assert f.nodes[n] == Snap(e.nodes[n].rev, e.nodes[n].content);
      }
    }
  }

  /** Nothing a ready engine reports moves in a pass that changes nothing, dropped nodes included. */
  lemma QuietPass<C>(e: Engine<C>, empty: C, built: map<string, C>, f: Engine<C>, n: string)
    requires Passed(e, empty, built, f) && Changed(e, empty, built) == {}
    ensures Reported(f, empty, n).content == Reported(e, empty, n).content
  {
    assert n !in Changed(e, empty, built);
    if n in f.nodes {
      assert f.nodes[n].content == Wanted(empty, built, n);
    } else if n in e.nodes {
      assert n in Dropped(e, empty, built);
    }
  }

  lemma FaithfulPass<C>(e: Engine<C>, empty: C, built: map<string, C>, f: Engine<C>, n: string, rev: int, content: C)
    requires Consistent(e) && Passed(e, empty, built, f) && Faithful(e, empty, n, rev, content)
    ensures Faithful(f, empty, n, rev, content)
  {
    hide Passed;
    PassLater(e, empty, built, f);
  }

  lemma PassKicks<C>(e: Engine<C>, empty: C, built: map<string, C>, f: Engine<C>, id: nat)
    requires Passed(e, empty, built, f) && id in e.subs
    ensures id in f.subs && f.ready
    ensures !f.subs[id] ==> !e.subs[id] && e.ready && Changed(e, empty, built) == {}
  {}

  lemma PassKeepsWatcher<C>(e: Engine<C>, empty: C, built: map<string, C>, f: Engine<C>, id: nat, w: Watcher<C>)
    requires Consistent(e) && Passed(e, empty, built, f) && WatcherInv(e, empty, id, w)
    ensures WatcherInv(f, empty, id, w)
  {
    hide Passed, Faithful, Reported, Changed;
    PassKicks(e, empty, built, f, id);
    if w.sent.Some? {
      FaithfulPass(e, empty, built, f, w.node, w.lastSent, w.sent.value);
    }
    if w.pc.Sending? {
      FaithfulPass(e, empty, built, f, w.node, w.pc.snap.rev, w.pc.snap.content);
    }
    if !f.subs[id] {
      QuietPass(e, empty, built, f, w.node);
    }
  }

  /** A watcher's own look, send or wake re-establishes its invariant. */
  lemma OwnStepKeeps<C>(e: Engine<C>, empty: C, id: nat, w: Watcher<C>, subs: map<nat, bool>)
    requires Consistent(e) && WatcherInv(e, empty, id, w)
    requires subs == if w.pc.Parked? then e.subs[id := false] else e.subs
    ensures WatcherInv(e.(subs := subs), empty, id, Stepped(e, empty, w))
  {}

  lemma NextKeepsInv<C>(empty: C, s: System<C>, a: Action<C>, t: System<C>)
    requires Inv(empty, s) && Next(empty, s, a, t)
    ensures Inv(empty, t) && Later(s.engine, t.engine)
  {
    hide Passed, Stepped, Changed, WatcherInv, Reported;
    match a
    case Recompute(built) =>
      PassLater(s.engine, empty, built, t.engine);
      forall id | id in t.watchers ensures WatcherInv(t.engine, empty, id, t.watchers[id]) {
        PassKeepsWatcher(s.engine, empty, built, t.engine, id, s.watchers[id]);
      }
    case Connect(node) =>
      NewWatcher(t.engine, empty, s.engine.nextSub, node);
      OthersKeep(empty, s, t, s.engine.nextSub);
    case Look(id) =>
      OwnStepKeeps(s.engine, empty, id, s.watchers[id], t.engine.subs);
      OthersKeep(empty, s, t, id);
    case Send(id) =>
      OwnStepKeeps(s.engine, empty, id, s.watchers[id], t.engine.subs);
      OthersKeep(empty, s, t, id);
    case Wake(id) =>
      OwnStepKeeps(s.engine, empty, id, s.watchers[id], t.engine.subs);
      OthersKeep(empty, s, t, id);
    case Leave(id) =>
      OthersKeep(empty, s, t, id);
  }

  lemma NewWatcher<C>(e: Engine<C>, empty: C, id: nat, node: string)
    requires id in e.subs
    ensures WatcherInv(e, empty, id, Watcher(node, Looking, -1, None))
  {}

  /** Steps that touch one subscription leave the other watchers' invariants alone. */
  lemma OthersKeep<C>(empty: C, s: System<C>, t: System<C>, id: nat)
    requires Inv(empty, s)
    requires t.engine == s.engine.(subs := t.engine.subs, nextSub := t.engine.nextSub)
    requires forall i | i in t.watchers && i != id :: i in s.watchers && t.watchers[i] == s.watchers[i]
    requires forall i | i in s.engine.subs && i != id :: i in t.engine.subs && t.engine.subs[i] == s.engine.subs[i]
    ensures forall i | i in t.watchers && i != id :: WatcherInv(t.engine, empty, i, t.watchers[i])
  {
    forall i | i in t.watchers && i != id ensures WatcherInv(t.engine, empty, i, t.watchers[i]) {
      assert WatcherInv(s.engine, empty, i, s.watchers[i]);
    }
  }

  lemma {:induction false} RunKeepsInv<C>(empty: C, tr: seq<System<C>>, acts: seq<Action<C>>, i: nat)
    requires Run(empty, tr, acts) && i < |tr|
    ensures Inv(empty, tr[i])
  {
    hide Next, Inv;
    if i == 0 {
      BootInv(empty);
    } else {
      RunKeepsInv(empty, tr, acts, i - 1);
      NextKeepsInv(empty, tr[i - 1], acts[i - 1], tr[i]);
    }
  }

  lemma BootInv<C>(empty: C)
    ensures Inv(empty, Boot<C>())
  {}

  lemma {:induction false} RunLater<C>(empty: C, tr: seq<System<C>>, acts: seq<Action<C>>, i: nat, j: nat)
    requires Run(empty, tr, acts) && i <= j < |tr|
    ensures Later(tr[i].engine, tr[j].engine)
    decreases j
  {
    if i < j {
      hide Next, Inv;
      RunLater(empty, tr, acts, i, j - 1);
      RunKeepsInv(empty, tr, acts, j - 1);
      NextKeepsInv(empty, tr[j - 1], acts[j - 1], tr[j]);
    }
  }

  // ---------------------------------------------------------------- guarantees over whole runs

  /** No lost wake-up: a stream parked without a pending kick on a ready engine has sent what the engine holds. */
  lemma NoLostWakeup<C>(empty: C, tr: seq<System<C>>, acts: seq<Action<C>>, i: nat, id: nat)
    requires Run(empty, tr, acts) && i < |tr| && id in tr[i].watchers
    requires var e, w := tr[i].engine, tr[i].watchers[id]; e.ready && w.pc.Parked? && id in e.subs && !e.subs[id]
    ensures tr[i].watchers[id].sent == Some(Reported(tr[i].engine, empty, tr[i].watchers[id].node).content)
  {
    RunKeepsInv(empty, tr, acts, i);
  }

  /** Over a whole run a node's revision determines its content, and revision zero is the empty content. */
  lemma RevisionDeterminesContent<C>(empty: C, tr: seq<System<C>>, acts: seq<Action<C>>, i: nat, j: nat, n: string)
    requires Run(empty, tr, acts) && i < |tr| && j < |tr|
    requires Reported(tr[i].engine, empty, n).rev == Reported(tr[j].engine, empty, n).rev
    ensures Reported(tr[i].engine, empty, n) == Reported(tr[j].engine, empty, n)
    ensures Reported(tr[i].engine, empty, n).rev == 0 ==> Reported(tr[i].engine, empty, n).content == empty
  {
    RunKeepsInv(empty, tr, acts, i);
    RunKeepsInv(empty, tr, acts, j);
    if i <= j {
      RunLater(empty, tr, acts, i, j);
    } else {
      RunLater(empty, tr, acts, j, i);
    }
  }

  /** A node whose snapshot moved carries a revision above all earlier ones, or has been dropped. */
  lemma RevisionsGrow<C>(empty: C, tr: seq<System<C>>, acts: seq<Action<C>>, i: nat, j: nat, n: string)
    requires Run(empty, tr, acts) && i <= j < |tr|
    requires Reported(tr[i].engine, empty, n) != Reported(tr[j].engine, empty, n)
    ensures n in tr[j].engine.nodes ==>
        forall m :: Reported(tr[i].engine, empty, m).rev < Reported(tr[j].engine, empty, n).rev
    ensures n !in tr[j].engine.nodes ==> Reported(tr[j].engine, empty, n) == Snap(0, empty)
  {
    RunKeepsInv(empty, tr, acts, i);
    RunLater(empty, tr, acts, i, j);
    RunKeepsInv(empty, tr, acts, j);
  }

  /** A node leaves the cache only in a pass that finds it departed and already empty. */
  lemma DropStep<C>(empty: C, s: System<C>, a: Action<C>, t: System<C>, n: string)
    requires Next(empty, s, a, t) && n in s.engine.nodes && n !in t.engine.nodes
    ensures a.Recompute? && n !in a.built && s.engine.nodes[n].content == empty
  {
    if a.Recompute? {
      assert n in Dropped(s.engine, empty, a.built);
    }
  }

  /** Before a node with content is dropped, the engine serves its empty snapshot under a newer revision. */
  lemma {:induction false} ServedEmptyBeforeDrop<C>(empty: C, tr: seq<System<C>>, acts: seq<Action<C>>, i: nat, j: nat,
                                                    n: string)
      returns (k: nat)
    requires Run(empty, tr, acts) && i <= j < |tr|
    requires n in tr[i].engine.nodes && tr[i].engine.nodes[n].content != empty && n !in tr[j].engine.nodes
    ensures i < k < j && n in tr[k].engine.nodes
    ensures tr[k].engine.nodes[n].content == empty && tr[k].engine.nodes[n].rev > tr[i].engine.nodes[n].rev
    decreases j
  {
    hide Next, Inv;
    if n in tr[j - 1].engine.nodes {
      k := j - 1;
      DropStep(empty, tr[k], acts[k], tr[j], n);
      RevisionsGrow(empty, tr, acts, i, k, n);
    } else {
      k := ServedEmptyBeforeDrop(empty, tr, acts, i, j - 1, n);
    }
  }

  // ---------------------------------------------------------------- what a stream sends

  /** A look at an unmoved revision, or at an engine not ready, parks the stream with nothing sent; any other sends. */
  lemma LookDecides<C>(empty: C, s: System<C>, id: nat, t: System<C>)
    requires Next(empty, s, Look(id), t)
    ensures id in s.watchers && id in t.watchers && t.engine == s.engine
    ensures var e, w := s.engine, s.watchers[id];
            var rev: nat, content := if w.node in e.nodes then e.nodes[w.node].rev else 0,
                                     if w.node in e.nodes then e.nodes[w.node].content else empty;
            t.watchers[id] == if e.ready && rev != w.lastSent then w.(pc := Sending(Snap(rev, content)))
                              else w.(pc := Parked)
  {}

  /** What is sent is remembered, and the stream parks until the next kick. */
  lemma SendRemembers<C>(empty: C, s: System<C>, id: nat, t: System<C>)
    requires Next(empty, s, Send(id), t)
    ensures id in s.watchers && id in t.watchers && s.watchers[id].pc.Sending?
    ensures var w := s.watchers[id];
            t.watchers[id] == Watcher(w.node, Parked, w.pc.snap.rev, Some(w.pc.snap.content))
  {}

  /** A kick is consumed by the stream it wakes, and makes it look again. */
  lemma WakeLooks<C>(empty: C, s: System<C>, id: nat, t: System<C>)
    requires Next(empty, s, Wake(id), t)
    ensures id in s.watchers && id in t.watchers && t.watchers[id] == s.watchers[id].(pc := Looking)
    ensures id in t.engine.subs && !t.engine.subs[id]
  {}

  /** A stream's memory changes by its own sends alone, and its id is never given to another. */
  lemma MemoryStep<C>(empty: C, s: System<C>, a: Action<C>, t: System<C>, id: nat)
    requires Inv(empty, s) && Next(empty, s, a, t) && a != Send(id) && id < s.engine.nextSub && id in t.watchers
    ensures id in s.watchers && t.watchers[id].lastSent == s.watchers[id].lastSent && id < t.engine.nextSub
  {}

  lemma IdsStay<C>(empty: C, s: System<C>, a: Action<C>, t: System<C>)
    requires Next(empty, s, a, t)
    ensures s.engine.nextSub <= t.engine.nextSub
  {}

  lemma {:induction false} MemoryStays<C>(empty: C, tr: seq<System<C>>, acts: seq<Action<C>>, i: nat, j: nat, id: nat)
    requires Run(empty, tr, acts) && i <= j < |tr| && id in tr[j].watchers && id < tr[i].engine.nextSub
    requires forall k | i <= k < j :: acts[k] != Send(id)
    ensures id in tr[i].watchers && tr[i].watchers[id].lastSent == tr[j].watchers[id].lastSent
    decreases j - i
  {
    hide Inv, Next;
    if i < j {
      var s, a, t := tr[i], acts[i], tr[i + 1];
      assert Next(empty, s, a, t);
      IdsStay(empty, s, a, t);
      MemoryStays(empty, tr, acts, i + 1, j, id);
      RunKeepsInv(empty, tr, acts, i);
      MemoryStep(empty, s, a, t, id);
    }
  }

  /** No stream sends the same revision twice in a row. */
  lemma NoResend<C>(empty: C, tr: seq<System<C>>, acts: seq<Action<C>>, i: nat, j: nat, id: nat)
    requires Run(empty, tr, acts) && i < j < |acts| && acts[i] == Send(id) && acts[j] == Send(id)
    requires forall k | i < k < j :: acts[k] != Send(id)
    ensures id in tr[i].watchers && tr[i].watchers[id].pc.Sending?
    ensures id in tr[j].watchers && tr[j].watchers[id].pc.Sending?
    ensures tr[i].watchers[id].pc.snap.rev != tr[j].watchers[id].pc.snap.rev
  {
    hide Inv, Next;
    assert Next(empty, tr[i], acts[i], tr[i + 1]) && Next(empty, tr[j], acts[j], tr[j + 1]);
    SendRemembers(empty, tr[i], id, tr[i + 1]);
    SendRemembers(empty, tr[j], id, tr[j + 1]);
    RunKeepsInv(empty, tr, acts, i + 1);
    RunKeepsInv(empty, tr, acts, j);
    InvWatcher(empty, tr[i + 1], id);
    InvWatcher(empty, tr[j], id);
    MemoryStays(empty, tr, acts, i + 1, j, id);
  }

  lemma InvWatcher<C>(empty: C, s: System<C>, id: nat)
    requires Inv(empty, s) && id in s.watchers
    ensures id < s.engine.nextSub
    ensures s.watchers[id].pc.Sending? ==> s.watchers[id].pc.snap.rev != s.watchers[id].lastSent
  {
    assert WatcherInv(s.engine, empty, id, s.watchers[id]);
  }

  // ---------------------------------------------------------------- catching up

  function OwnAction<C>(id: nat, w: Watcher<C>): Action<C> {
    match w.pc
    case Looking => Look(id)
    case Sending(_) => Send(id)
    case Parked => Wake(id)
  }

  /** Steps a watcher can still take before it must park without a kick. */
  function Lag<C>(e: Engine<C>, empty: C, id: nat, w: Watcher<C>): nat {
    (if id in e.subs && e.subs[id] then 3 else 0) + match w.pc case Looking => 2 case Sending(_) => 1 case Parked => 0
  }

  /** Left alone, a watcher's own steps run out, and then it is parked with no kick pending. */
  lemma CatchesUp<C>(empty: C, s: System<C>, id: nat, t: System<C>)
    requires Inv(empty, s) && id in s.watchers
    requires Enabled(s, OwnAction(id, s.watchers[id])) ==> Next(empty, s, OwnAction(id, s.watchers[id]), t)
    ensures !Enabled(s, OwnAction(id, s.watchers[id])) <==> s.watchers[id].pc.Parked? && !s.engine.subs[id]
    ensures Enabled(s, OwnAction(id, s.watchers[id])) ==>
        id in t.watchers && Lag(t.engine, empty, id, t.watchers[id]) < Lag(s.engine, empty, id, s.watchers[id])
  {
    assert WatcherInv(s.engine, empty, id, s.watchers[id]);
  }

  /** Passes, new streams and hang-ups may come at any time. */
  lemma MayHappen<C>(s: System<C>, built: map<string, C>, node: string, id: nat)
    ensures Enabled(s, Recompute(built)) && Enabled(s, Connect(node)) && (Enabled(s, Leave(id)) <==> id in s.watchers)
  {}

  /** A new stream has sent nothing, starts by looking, and has no kick waiting. */
  lemma ConnectMeans<C>(empty: C, s: System<C>, node: string, t: System<C>)
    requires Next(empty, s, Connect(node), t)
    ensures var id := s.engine.nextSub;
            && t.engine.nextSub == id + 1 && t.watchers == s.watchers[id := Watcher(node, Looking, -1, None)]
            && t.engine.subs == s.engine.subs[id := false] && t.engine.nodes == s.engine.nodes
  {}

  /** A stream that leaves takes its subscription along, and nobody else's. */
  lemma LeaveMeans<C>(empty: C, s: System<C>, id: nat, t: System<C>)
    requires Next(empty, s, Leave(id), t)
    ensures t.watchers == s.watchers - {id} && t.engine.subs == s.engine.subs - {id}
    ensures t.engine.nodes == s.engine.nodes && t.engine.version == s.engine.version
  {}

  /** No step that may be taken is without a successor. */
  lemma StepExists<C>(empty: C, s: System<C>, a: Action<C>) returns (t: System<C>)
    requires Enabled(s, a)
    ensures Next(empty, s, a, t)
  {
    match a
    case Recompute(built) =>
      t := s.(engine := PassOf(s.engine, empty, built));
    case Connect(node) =>
      var e, id := s.engine, s.engine.nextSub;
      t := System(e.(subs := e.subs[id := false], nextSub := id + 1),
                  s.watchers[id := Watcher(node, Looking, -1, None)]);
    case Look(id) => t := s.(watchers := s.watchers[id := Stepped(s.engine, empty, s.watchers[id])]);
    case Send(id) => t := s.(watchers := s.watchers[id := Stepped(s.engine, empty, s.watchers[id])]);
    case Wake(id) =>
      t := System(s.engine.(subs := s.engine.subs[id := false]),
                  s.watchers[id := Stepped(s.engine, empty, s.watchers[id])]);
    case Leave(id) => t := System(s.engine.(subs := s.engine.subs - {id}), s.watchers - {id});
  }

  ghost function PassOf<C>(e: Engine<C>, empty: C, built: map<string, C>): (f: Engine<C>)
    ensures Passed(e, empty, built, f)
  {
    var dropped, changed := Dropped(e, empty, built), Changed(e, empty, built);
    var version := e.version + if changed == {} then 0 else 1;
    var nodes := map n | n in e.nodes.Keys + built.Keys - dropped ::
      Snap(if n in changed then version else e.nodes[n].rev, Wanted(empty, built, n));
    Engine(true, version, nodes, map i | i in e.subs :: e.subs[i] || changed != {} || !e.ready, e.nextSub)
  }

  /** A run starts where a new engine does: not ready, no revision given out, nobody watching. */
  lemma BootMeans<C>()
    ensures var s := Boot<C>();
            && !s.engine.ready && s.engine.version == 0 && s.engine.nodes == map[] && s.engine.subs == map[]
            && s.engine.nextSub == 0 && s.watchers == map[]
  {}
}
