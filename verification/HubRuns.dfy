/**
 The hub's critical sections interleaved in every order.

 A Logs RPC parks a waiter under an id nobody used before and sends its
 command once. A stream's handler takes a command off the queue, then tries to
 send it on; it may hang up between commands, and must when a send fails.
 Detach then forgets the stream and sweeps its queue one command at a time.
 An agent pushes output for the commands it got. The histories of a stream
 (`accepted`, `delivered`, `lost`, `drained`, `fates`), `heard`, `ended` and
 `latest` are read by no guard.
 */
module HubRuns {
  import opened CommandHub

  datatype Stage =
    | Open
    | Handing(cmd: Command)             // off the queue, on its way into the stream
    | Sweeping
    | Routing(cmd: Command)
    | Holding(cmd: Command, box: nat)   // found the waiter, waiting for room in its channel
    | Closed

  /** What became of a command taken off the queue by detach. */
  datatype Fate = Ignored | Ended(box: nat) | Vanished

  datatype Stream = Stream(node: string, stage: Stage, accepted: seq<Command>, delivered: seq<Command>,
                           lost: seq<Command>, drained: seq<Command>, fates: seq<Fate>)

  type Streams = map<nat, Stream>

  /**
   Ids parked and removed, the stream each Logs command went to, the commands
   agents hold, and those whose agent sent an end.
   */
  datatype Rpcs = Rpcs(added: set<string>, removed: set<string>, asked: map<string, nat>, running: set<string>,
                       ended: set<string>)

  /** `heard` is everything ever put into a waiter's channel, `latest` each node's newest stream. */
  datatype System = System(core: Core, all: Streams, rpcs: Rpcs, heard: map<nat, seq<Output>>, latest: map<string, nat>)

  datatype Action =
    | Attach(node: string)
    | Send(node: string, cmd: Command)
    | Take(sid: nat)
    | Deliver(sid: nat)
    | SendFails(sid: nat)
    | HangUp(sid: nat)
    | Sweep(sid: nat)
    | Lookup(sid: nat)
    | Tell(sid: nat)
    | GiveUp(sid: nat)
    | Finish(sid: nat)
    | Park(id: string, node: string)
    | Unpark(id: string)
    | Push(box: nat, out: Output)
    | Read(box: nat)

  predicate At(s: System, sid: nat) {
    sid in s.all && sid in s.core.queues
  }

  predicate Room(c: Core, b: nat) {
    b in c.boxes && |c.boxes[b].buffer| < QUEUE
  }

  predicate Enabled(s: System, a: Action) {
    match a
    case Attach(_) => true
    case Send(node, cmd) =>
      && Accepts(s.core, node) && s.core.streams[node] in s.all
      && (cmd.Logs? ==> cmd.id in s.rpcs.added && cmd.id !in s.rpcs.asked)
    case Take(sid) => At(s, sid) && s.all[sid].stage.Open? && s.core.queues[sid] != []
    case Deliver(sid) => At(s, sid) && s.all[sid].stage.Handing?
    case SendFails(sid) => At(s, sid) && s.all[sid].stage.Handing?
    case HangUp(sid) => At(s, sid) && s.all[sid].stage.Open?
    case Sweep(sid) => At(s, sid) && s.all[sid].stage.Sweeping? && s.core.queues[sid] != []
    case Lookup(sid) => At(s, sid) && s.all[sid].stage.Routing?
    case Tell(sid) => At(s, sid) && s.all[sid].stage.Holding? && Room(s.core, s.all[sid].stage.box)
    case GiveUp(sid) =>
      && At(s, sid) && s.all[sid].stage.Holding? && s.all[sid].stage.box in s.core.boxes
      && s.core.boxes[s.all[sid].stage.box].gone
    case Finish(sid) => At(s, sid) && s.all[sid].stage.Sweeping? && s.core.queues[sid] == []
    case Park(id, _) => id !in s.rpcs.added
    case Unpark(id) => id in s.core.waiters
    case Push(b, out) => Room(s.core, b) && out.id == s.core.boxes[b].id && out.id in s.rpcs.running
    case Read(b) => b in s.core.boxes && s.core.boxes[b].buffer != []
  }

  /** Whether the action moves a stream, and which. */
  predicate Moves(a: Action) {
    !a.Park? && !a.Unpark? && !a.Push? && !a.Read?
  }

  function SidOf(s: System, a: Action): nat
    requires Enabled(s, a) && Moves(a)
  {
    if a.Attach? then s.core.nextStream else if a.Send? then s.core.streams[a.node] else a.sid
  }

  /** Whether the action touches the waiters' side of the hub rather than the streams'. */
  predicate OnBoxes(a: Action) {
    !Moves(a) || a.Tell?
  }

  function BoxCore(s: System, a: Action): Core
    requires Enabled(s, a) && OnBoxes(a)
  {
    match a
    case Tell(sid) => Put(s.core, s.all[sid].stage.box, Disconnected(s.all[sid].stage.cmd.id))
    case Park(id, node) => Parked(s.core, id, node)
    case Unpark(id) => Removed(s.core, id)
    case Push(b, out) => Put(s.core, b, out)
    case Read(b) =>
      var box := s.core.boxes[b];
      s.core.(boxes := s.core.boxes[b := box.(buffer := box.buffer[1..])])
  }

  function StreamCore(s: System, a: Action): Core
    requires Enabled(s, a) && !OnBoxes(a)
  {
    match a
    case Attach(node) => Attached(s.core, node)
    case Send(node, cmd) => Sent(s.core, node, cmd)
    case Take(sid) => Popped(s.core, sid)
    case SendFails(sid) => Forgotten(s.core, s.all[sid].node, sid)
    case HangUp(sid) => Forgotten(s.core, s.all[sid].node, sid)
    case Sweep(sid) => Popped(s.core, sid)
    case _ => s.core
  }

  function CoreAfter(s: System, a: Action): Core
    requires Enabled(s, a)
  {
    if OnBoxes(a) then BoxCore(s, a) else StreamCore(s, a)
  }

  function StreamAfter(s: System, a: Action): Stream
    requires Enabled(s, a) && Moves(a)
  {
    if a.Attach? then Stream(a.node, Open, [], [], [], [], []) else
    var st := s.all[SidOf(s, a)];
    match a
    case Send(_, cmd) => st.(accepted := st.accepted + [cmd])
    case Take(sid) => st.(stage := Handing(s.core.queues[sid][0]))
    case Deliver(_) => st.(delivered := st.delivered + [st.stage.cmd], stage := Open)
    case SendFails(_) => st.(lost := [st.stage.cmd], stage := Sweeping)
    case HangUp(_) => st.(stage := Sweeping)
    case Sweep(sid) =>
      var cmd := s.core.queues[sid][0];
      if cmd.Logs? then st.(drained := st.drained + [cmd], stage := Routing(cmd))
      else st.(drained := st.drained + [cmd], fates := st.fates + [Ignored])
    case Lookup(_) =>
      if st.stage.cmd.id in s.core.waiters then st.(stage := Holding(st.stage.cmd, s.core.waiters[st.stage.cmd.id]))
      else st.(stage := Sweeping, fates := st.fates + [Vanished])
    case Tell(_) => st.(stage := Sweeping, fates := st.fates + [Ended(st.stage.box)])
    case GiveUp(_) => st.(stage := Sweeping, fates := st.fates + [Vanished])
    case Finish(_) => st.(stage := Closed)
  }

  function RpcsAfter(s: System, a: Action): Rpcs
    requires Enabled(s, a)
  {
    var r := s.rpcs;
    match a
    case Send(node, Logs(id)) => r.(asked := r.asked[id := s.core.streams[node]])
    case Deliver(sid) => if s.all[sid].stage.cmd.Logs? then r.(running := r.running + {s.all[sid].stage.cmd.id}) else r
    case Park(id, _) => r.(added := r.added + {id})
    case Unpark(id) => r.(removed := r.removed + {id})
    case Push(_, out) => if out.eof then r.(ended := r.ended + {out.id}) else r
    case _ => r
  }

  function HeardBy(heard: map<nat, seq<Output>>, b: nat): seq<Output> {
    if b in heard then heard[b] else []
  }

  function HeardAfter(s: System, a: Action): map<nat, seq<Output>>
    requires Enabled(s, a)
  {
    match a
    case Tell(sid) =>
      var b := s.all[sid].stage.box;
      s.heard[b := HeardBy(s.heard, b) + [Disconnected(s.all[sid].stage.cmd.id)]]
    case Push(b, out) => s.heard[b := HeardBy(s.heard, b) + [out]]
    case Park(_, _) => s.heard[s.core.nextBox := []]
    case _ => s.heard
  }

  function Step(s: System, a: Action): System
    requires Enabled(s, a)
  {
    System(CoreAfter(s, a), if Moves(a) then s.all[SidOf(s, a) := StreamAfter(s, a)] else s.all, RpcsAfter(s, a),
           HeardAfter(s, a), if a.Attach? then s.latest[a.node := s.core.nextStream] else s.latest)
  }

  function Boot(): System {
    System(Core(map[], map[], 0, map[], map[], 0), map[], Rpcs({}, {}, map[], {}, {}), map[], map[])
  }

  ghost predicate Run(tr: seq<System>, acts: seq<Action>) {
    && |tr| == |acts| + 1 && tr[0] == Boot()
    && (forall i | 0 <= i < |acts| :: Enabled(tr[i], acts[i]) && tr[i + 1] == Step(tr[i], acts[i]))
  }

  // ---------------------------------------------------------------- the invariant

  /** The stream's handler has not returned. */
  predicate Live(st: Stream) {
    st.stage.Open? || st.stage.Handing?
  }

  predicate Busy(st: Stream) {
    st.stage.Routing? || st.stage.Holding?
  }

  predicate Registered(c: Core, sid: nat, st: Stream) {
    st.node in c.streams && c.streams[st.node] == sid
  }

  /** The command between queue and stream: still in the handler's hands, or lost there. */
  function Hand(st: Stream): seq<Command> {
    if st.stage.Handing? then [st.stage.cmd] else st.lost
  }

  /** What was accepted is, in order, what was delivered, in hand, drained and queued. */
  ghost predicate Accounts(c: Core, sid: nat, st: Stream) {
    && sid in c.queues
    && st.accepted == st.delivered + Hand(st) + st.drained + c.queues[sid]
    && (Live(st) ==> st.lost == [] && st.drained == [])
    && (st.stage.Closed? ==> c.queues[sid] == [])
    && (Registered(c, sid, st) ==> Live(st))
  }

  /** Every Logs command is accepted once, by one stream, and held by an agent once delivered. */
  ghost predicate Unique(r: Rpcs, sid: nat, st: Stream) {
    && (forall c | c in st.accepted && c.Logs? :: c.id in r.added && c.id in r.asked && r.asked[c.id] == sid)
    && (forall i, j | 0 <= i < j < |st.accepted| && st.accepted[i].Logs? :: st.accepted[i] != st.accepted[j])
    && (forall c | c in st.delivered && c.Logs? :: c.id in r.running)
  }

  /** A drained command's fate is the right one: a Logs waiter heard the end, or had already left. */
  ghost predicate Settled(s: System, cmd: Command, f: Fate) {
    match cmd
    case Stop(_) => f == Ignored
    case Logs(id) =>
      || (f.Ended? && f.box in s.core.boxes && s.core.boxes[f.box].id == id
          && f.box in s.heard && Disconnected(id) in s.heard[f.box])
      || (f == Vanished && id in s.rpcs.removed)
  }

  ghost predicate Fates(s: System, st: Stream) {
    && |st.drained| == |st.fates| + (if Busy(st) then 1 else 0)
    && (Busy(st) ==> st.drained[|st.drained| - 1] == st.stage.cmd && st.stage.cmd.Logs?)
    && (st.stage.Holding? ==> st.stage.box in s.core.boxes && s.core.boxes[st.stage.box].id == st.stage.cmd.id)
    && (forall i | 0 <= i < |st.fates| :: Settled(s, st.drained[i], st.fates[i]))
  }

  ghost predicate Waiters(c: Core, r: Rpcs, heard: map<nat, seq<Output>>) {
    && BoxesWired(c) && heard.Keys == c.boxes.Keys && r.removed <= r.added
    && (forall id | id in r.added :: id in c.waiters || id in r.removed)
    && (forall id | id in c.waiters :: id !in r.removed)
    && (forall b | b in c.boxes && c.boxes[b].gone :: c.boxes[b].id in r.removed)
    && (forall b | b in c.boxes :: c.boxes[b].id in r.added)
    && (forall a, b | a in c.boxes && b in c.boxes && c.boxes[a].id == c.boxes[b].id :: a == b)
  }

  /** `latest` holds each node's newest stream. */
  ghost predicate Tops(all: Streams, latest: map<string, nat>) {
    && (forall n | n in latest :: latest[n] in all && all[latest[n]].node == n)
    && (forall sid | sid in all :: all[sid].node in latest && sid <= latest[all[sid].node])
  }

  /** A node's slot holds its newest stream, and does while that one's handler runs. */
  ghost predicate Slots(slots: map<string, nat>, all: Streams, latest: map<string, nat>) {
    && (forall n | n in slots :: n in latest && slots[n] == latest[n])
    && (forall n | n in latest && latest[n] in all && Live(all[latest[n]]) :: n in slots)
  }

  ghost predicate Newest(s: System) {
    && StreamsWired(s.core) && s.all.Keys == s.core.queues.Keys
    && Tops(s.all, s.latest) && Slots(s.core.streams, s.all, s.latest)
  }

  predicate Eof(os: seq<Output>) {
    exists o | o in os :: o.eof
  }

  /** An agent got the command. */
  predicate Got(all: Streams, r: Rpcs, id: string) {
    id in r.asked && r.asked[id] in all && Logs(id) in all[r.asked[id]].delivered
  }

  /** Somebody ended this command's output: its agent did, or detach drained it. */
  predicate Explained(all: Streams, r: Rpcs, id: string) {
    id in r.ended || (id in r.asked && r.asked[id] in all && Logs(id) in all[r.asked[id]].drained)
  }

  /** Ends are heard for a reason, and an agent's end is heard. */
  ghost predicate Ends(s: System) {
    && (forall id | id in s.rpcs.running :: Got(s.all, s.rpcs, id))
    && s.rpcs.ended <= s.rpcs.running
    && (forall b | b in s.core.boxes && b in s.heard && Eof(s.heard[b]) :: Explained(s.all, s.rpcs, s.core.boxes[b].id))
    && (forall id | id in s.rpcs.ended ::
          exists b | b in s.core.boxes && b in s.heard :: s.core.boxes[b].id == id && Eof(s.heard[b]))
  }

  ghost predicate StreamOk(s: System, sid: nat, st: Stream) {
    Accounts(s.core, sid, st) && Unique(s.rpcs, sid, st) && Fates(s, st)
  }

  ghost predicate Inv(s: System) {
    && Waiters(s.core, s.rpcs, s.heard) && Newest(s) && Ends(s)
    && (forall sid | sid in s.all :: StreamOk(s, sid, s.all[sid]))
  }

  // ---------------------------------------------------------------- what a step does to each part

  lemma BoxCoreKeeps(s: System, a: Action)
    requires Enabled(s, a) && OnBoxes(a)
    ensures var c := BoxCore(s, a);
            c.queues == s.core.queues && c.streams == s.core.streams && c.nextStream == s.core.nextStream
  {}

  lemma StreamCoreKeeps(s: System, a: Action)
    requires Enabled(s, a) && !OnBoxes(a)
    ensures var c := StreamCore(s, a);
            c.waiters == s.core.waiters && c.boxes == s.core.boxes && c.nextBox == s.core.nextBox
  {}

  function QueuesThen(s: System, a: Action): map<nat, seq<Command>>
    requires Enabled(s, a)
  {
    match a
    case Attach(_) => s.core.queues[s.core.nextStream := []]
    case Send(_, cmd) => s.core.queues[SidOf(s, a) := s.core.queues[SidOf(s, a)] + [cmd]]
    case Take(sid) => s.core.queues[sid := s.core.queues[sid][1..]]
    case Sweep(sid) => s.core.queues[sid := s.core.queues[sid][1..]]
    case _ => s.core.queues
  }

  lemma QueuesAfter(s: System, a: Action)
    requires Enabled(s, a)
    ensures CoreAfter(s, a).queues == QueuesThen(s, a)
  {
    if OnBoxes(a) {
      BoxCoreKeeps(s, a);
      hide BoxCore;
    }
  }

  /** A stream's own detach frees no slot but its own. */
  lemma ForgottenSlots(c: Core, node: string, sid: nat, st: Stream)
    requires st.node == node
    ensures var d := Forgotten(c, node, sid);
            && (forall n | n in d.streams :: n in c.streams && d.streams[n] == c.streams[n])
            && (forall n | n in c.streams && n !in d.streams :: c.streams[n] == sid)
            && !Registered(d, sid, st) && d.nextStream == c.nextStream
  {}

  lemma SlotsAfter(s: System, a: Action)
    requires Enabled(s, a)
    ensures var c := CoreAfter(s, a);
            && c.nextStream == s.core.nextStream + (if a.Attach? then 1 else 0)
            && (a.Attach? ==> c.streams == s.core.streams[a.node := s.core.nextStream])
            && (!a.Attach? && !a.HangUp? && !a.SendFails? ==> c.streams == s.core.streams)
            && (a.HangUp? || a.SendFails? ==>
                  && (forall n | n in c.streams :: n in s.core.streams && c.streams[n] == s.core.streams[n])
                  && (forall n | n in s.core.streams && n !in c.streams :: s.core.streams[n] == a.sid)
                  && !Registered(c, a.sid, s.all[a.sid]))
  {
    if OnBoxes(a) {
      BoxCoreKeeps(s, a);
      hide BoxCore;
    } else if a.HangUp? || a.SendFails? {
      ForgottenSlots(s.core, s.all[a.sid].node, a.sid, s.all[a.sid]);
      hide Forgotten, Registered;
    }
  }

  /** Channel traffic leaves ids, owners and who is gone alone. */
  ghost predicate SameBoxes(c: Core, d: Core) {
    && d.waiters == c.waiters && d.nextBox == c.nextBox && d.boxes.Keys == c.boxes.Keys
    && (forall b | b in d.boxes :: d.boxes[b] == c.boxes[b].(buffer := d.boxes[b].buffer))
  }

  lemma BoxesAfter(s: System, a: Action)
    requires Enabled(s, a) && !a.Park? && !a.Unpark?
    ensures SameBoxes(s.core, CoreAfter(s, a))
  {
    if !OnBoxes(a) {
      StreamCoreKeeps(s, a);
      hide StreamCore;
    }
  }

  /** What every step only adds to. */
  ghost predicate Grows(s: System, t: System) {
    && s.rpcs.added <= t.rpcs.added && s.rpcs.removed <= t.rpcs.removed
    && s.rpcs.running <= t.rpcs.running && s.rpcs.ended <= t.rpcs.ended
    && (forall id | id in s.rpcs.asked :: id in t.rpcs.asked && t.rpcs.asked[id] == s.rpcs.asked[id])
    && (forall b | b in s.core.boxes ::
          b in t.core.boxes && t.core.boxes[b].id == s.core.boxes[b].id && t.core.boxes[b].node == s.core.boxes[b].node)
    && (forall b | b in s.heard :: b in t.heard && s.heard[b] <= t.heard[b])
    && (forall i | i in s.all ::
          i in t.all && s.all[i].delivered <= t.all[i].delivered && s.all[i].drained <= t.all[i].drained)
  }

  lemma RpcsGrow(s: System, a: Action)
    requires Enabled(s, a)
    ensures var r := RpcsAfter(s, a);
            && s.rpcs.added <= r.added && s.rpcs.removed <= r.removed
            && s.rpcs.running <= r.running && s.rpcs.ended <= r.ended
            && (forall id | id in s.rpcs.asked :: id in r.asked && r.asked[id] == s.rpcs.asked[id])
  {}

  lemma BoxesGrow(s: System, a: Action)
    requires Enabled(s, a) && BoxesWired(s.core)
    ensures var c := CoreAfter(s, a);
            forall b | b in s.core.boxes ::
              b in c.boxes && c.boxes[b].id == s.core.boxes[b].id && c.boxes[b].node == s.core.boxes[b].node
  {
    if !a.Park? && !a.Unpark? {
      hide CoreAfter, Enabled;
      BoxesAfter(s, a);
    }
  }

  lemma HeardGrows(s: System, a: Action)
    requires Enabled(s, a) && BoxesWired(s.core) && s.heard.Keys == s.core.boxes.Keys
    ensures forall b | b in s.heard :: b in HeardAfter(s, a) && s.heard[b] <= HeardAfter(s, a)[b]
  {}

  lemma StreamGrows(s: System, a: Action)
    requires Enabled(s, a) && Moves(a) && SidOf(s, a) in s.all && !a.Attach?
    ensures var st := s.all[SidOf(s, a)];
            && st.delivered <= StreamAfter(s, a).delivered && st.drained <= StreamAfter(s, a).drained
            && StreamAfter(s, a).node == st.node && (Live(StreamAfter(s, a)) ==> Live(st))
  {}

  lemma Attachable(s: System, a: Action)
    requires Enabled(s, a) && Moves(a) && StreamsWired(s.core) && s.all.Keys == s.core.queues.Keys
    ensures a.Attach? <==> SidOf(s, a) !in s.all
  {}

  lemma StepGrows(s: System, a: Action)
    requires Enabled(s, a) && BoxesWired(s.core) && s.heard.Keys == s.core.boxes.Keys
    requires StreamsWired(s.core) && s.all.Keys == s.core.queues.Keys
    ensures Grows(s, Step(s, a))
  {
    hide CoreAfter, StreamAfter, RpcsAfter, HeardAfter, Enabled, SidOf, StreamsWired;
    RpcsGrow(s, a);
    BoxesGrow(s, a);
    HeardGrows(s, a);
    if Moves(a) {
      Attachable(s, a);
      if !a.Attach? {
        StreamGrows(s, a);
      }
    }
  }

  // ---------------------------------------------------------------- one stream

  lemma SettledGrows(s: System, t: System, cmd: Command, f: Fate)
    requires Grows(s, t) && Settled(s, cmd, f)
    ensures Settled(t, cmd, f)
  {
    if f.Ended? {
      assert forall o | o in s.heard[f.box] :: o in t.heard[f.box];
    }
  }

  lemma FatesGrow(s: System, t: System, st: Stream)
    requires Grows(s, t) && Fates(s, st)
    ensures Fates(t, st)
  {
    hide Settled;
    forall i | 0 <= i < |st.fates| ensures Settled(t, st.drained[i], st.fates[i]) {
      SettledGrows(s, t, st.drained[i], st.fates[i]);
    }
  }

  /** A stream the action does not move. */
  lemma OtherOk(s: System, a: Action, sid: nat)
    requires Enabled(s, a) && sid in s.all && StreamOk(s, sid, s.all[sid]) && Grows(s, Step(s, a))
    requires Moves(a) ==> sid != SidOf(s, a)
    requires StreamsWired(s.core) && s.all.Keys == s.core.queues.Keys
    ensures sid in Step(s, a).all && StreamOk(Step(s, a), sid, Step(s, a).all[sid])
  {
    hide CoreAfter, StreamAfter, RpcsAfter, HeardAfter, Enabled, Fates, StreamsWired, Unique, Grows;
    OthersQueue(s, a, sid);
    FatesGrow(s, Step(s, a), s.all[sid]);
    UniqueGrows(s, Step(s, a), sid, s.all[sid]);
  }

  lemma UniqueGrows(s: System, t: System, sid: nat, st: Stream)
    requires Grows(s, t) && Unique(s.rpcs, sid, st)
    ensures Unique(t.rpcs, sid, st)
  {}

  lemma OthersQueue(s: System, a: Action, sid: nat)
    requires Enabled(s, a) && sid in s.all && sid in s.core.queues && StreamsWired(s.core)
    requires Moves(a) ==> sid != SidOf(s, a)
    ensures var c := CoreAfter(s, a);
            && sid in c.queues && c.queues[sid] == s.core.queues[sid]
            && (Registered(c, sid, s.all[sid]) ==> Registered(s.core, sid, s.all[sid]))
  {
    QueuesAfter(s, a);
    SlotsAfter(s, a);
    hide CoreAfter;
  }

  /** Moving the oldest queued command on keeps the books straight. */
  lemma PopKeeps(accepted: seq<Command>, delivered: seq<Command>, hand: seq<Command>, drained: seq<Command>,
                 q: seq<Command>)
    requires q != [] && accepted == delivered + hand + drained + q
    ensures accepted == delivered + hand + (drained + [q[0]]) + q[1..]
    ensures hand == drained == [] ==> accepted == delivered + [q[0]] + drained + q[1..]
  {
    assert q == [q[0]] + q[1..];
  }

  lemma AttachAccounts(s: System, node: string)
    ensures Accounts(CoreAfter(s, Attach(node)), s.core.nextStream, StreamAfter(s, Attach(node)))
  {}

  lemma SendAccounts(s: System, node: string, cmd: Command)
    requires Enabled(s, Send(node, cmd)) && Accounts(s.core, s.core.streams[node], s.all[s.core.streams[node]])
    requires s.all[s.core.streams[node]].node == node
    ensures Accounts(CoreAfter(s, Send(node, cmd)), s.core.streams[node], StreamAfter(s, Send(node, cmd)))
  {}

  lemma HandlerAccounts(s: System, a: Action)
    requires Enabled(s, a) && (a.Take? || a.Deliver? || a.SendFails? || a.HangUp?)
    requires Accounts(s.core, a.sid, s.all[a.sid])
    ensures Accounts(CoreAfter(s, a), a.sid, StreamAfter(s, a))
  {
    QueuesAfter(s, a);
    SlotsAfter(s, a);
    hide CoreAfter;
    var st := s.all[a.sid];
    if a.Take? {
      PopKeeps(st.accepted, st.delivered, [], st.drained, s.core.queues[a.sid]);
    }
  }

  lemma SweepAccounts(s: System, a: Action)
    requires Enabled(s, a) && (a.Sweep? || a.Lookup? || a.Tell? || a.GiveUp? || a.Finish?)
    requires Accounts(s.core, a.sid, s.all[a.sid])
    ensures Accounts(CoreAfter(s, a), a.sid, StreamAfter(s, a))
  {
    QueuesAfter(s, a);
    SlotsAfter(s, a);
    hide CoreAfter;
    var st := s.all[a.sid];
    if a.Sweep? {
      PopKeeps(st.accepted, st.delivered, st.lost, st.drained, s.core.queues[a.sid]);
    }
  }

  lemma MovedAccounts(s: System, a: Action)
    requires Enabled(s, a) && Moves(a)
    requires a.Send? ==> s.all[SidOf(s, a)].node == a.node
    requires !a.Attach? ==> Accounts(s.core, SidOf(s, a), s.all[SidOf(s, a)])
    ensures Accounts(CoreAfter(s, a), SidOf(s, a), StreamAfter(s, a))
  {
    hide CoreAfter, StreamAfter, Accounts, Enabled;
    match a
    case Attach(node) => AttachAccounts(s, node);
    case Send(node, cmd) => SendAccounts(s, node, cmd);
    case Take(_) => HandlerAccounts(s, a);
    case Deliver(_) => HandlerAccounts(s, a);
    case SendFails(_) => HandlerAccounts(s, a);
    case HangUp(_) => HandlerAccounts(s, a);
    case _ => SweepAccounts(s, a);
  }

  /** A command in the handler's hands was accepted. */
  lemma HandAccepted(c: Core, sid: nat, st: Stream)
    requires Accounts(c, sid, st) && st.stage.Handing?
    ensures st.stage.cmd in st.accepted
  {
    assert st.stage.cmd in Hand(st);
  }

  lemma MovedUnique(s: System, a: Action)
    requires Enabled(s, a) && Moves(a)
    requires !a.Attach? ==>
        Accounts(s.core, SidOf(s, a), s.all[SidOf(s, a)]) && Unique(s.rpcs, SidOf(s, a), s.all[SidOf(s, a)])
    ensures Unique(RpcsAfter(s, a), SidOf(s, a), StreamAfter(s, a))
  {
    if a.Deliver? {
      HandAccepted(s.core, a.sid, s.all[a.sid]);
    }
    hide Accounts;
    if !a.Attach? && !a.Send? && !a.Deliver? {
      SameLogs(s, a);
    }
  }

  lemma SameLogs(s: System, a: Action)
    requires Enabled(s, a) && Moves(a) && !a.Attach? && !a.Send? && !a.Deliver?
    ensures RpcsAfter(s, a) == s.rpcs
    ensures StreamAfter(s, a).accepted == s.all[a.sid].accepted && StreamAfter(s, a).delivered == s.all[a.sid].delivered
  {}

  /** The command being routed was drained by this stream, and its waiter is parked or removed. */
  lemma BusyCommand(s: System, sid: nat, st: Stream)
    requires StreamOk(s, sid, st) && Busy(st) && Waiters(s.core, s.rpcs, s.heard)
    ensures var cmd := st.stage.cmd;
            && cmd.Logs? && cmd in st.drained && cmd.id in s.rpcs.asked && s.rpcs.asked[cmd.id] == sid
            && (cmd.id in s.core.waiters || cmd.id in s.rpcs.removed)
  {
    hide Settled, Registered;
    assert st.stage.cmd in st.drained;
    assert st.stage.cmd in st.accepted;
  }

  /** Commands taken off the queue by anyone but detach, and stages outside routing, leave the fates alone. */
  lemma IdleFates(s: System, t: System, st: Stream, st': Stream)
    requires Grows(s, t) && Fates(s, st) && !Busy(st) && !Busy(st')
    requires st'.drained == st.drained && st'.fates == st.fates
    ensures Fates(t, st')
  {
    hide Grows;
    FatesGrow(s, t, st);
  }

  lemma FateAdded(s: System, t: System, st: Stream, st': Stream, f: Fate)
    requires Grows(s, t) && Fates(s, st) && Busy(st) && !Busy(st')
    requires st'.drained == st.drained && st'.fates == st.fates + [f] && Settled(t, st.stage.cmd, f)
    ensures Fates(t, st')
  {
    hide Settled, Grows;
    FatesGrow(s, t, st);
  }

  lemma SweptFates(s: System, t: System, st: Stream, st': Stream, cmd: Command)
    requires Grows(s, t) && Fates(s, st) && !Busy(st) && st'.drained == st.drained + [cmd]
    requires cmd.Logs? ==> st'.fates == st.fates && st'.stage == Routing(cmd)
    requires cmd.Stop? ==> st'.fates == st.fates + [Ignored] && !Busy(st')
    ensures Fates(t, st')
  {
    hide Grows;
    FatesGrow(s, t, st);
  }

  lemma HeldFates(s: System, t: System, st: Stream, st': Stream)
    requires Grows(s, t) && Fates(s, st) && st.stage.Routing? && st'.stage.Holding? && st'.stage.cmd == st.stage.cmd
    requires st' == st.(stage := st'.stage)
    requires st'.stage.box in t.core.boxes && t.core.boxes[st'.stage.box].id == st.stage.cmd.id
    ensures Fates(t, st')
  {
    hide Settled, Grows;
    FatesGrow(s, t, st);
  }

  lemma EndedSettles(t: System, cmd: Command, b: nat)
    requires cmd.Logs? && b in t.core.boxes && t.core.boxes[b].id == cmd.id && b in t.heard
    requires t.heard[b] != [] && t.heard[b][|t.heard[b]| - 1] == Disconnected(cmd.id)
    ensures Settled(t, cmd, Ended(b))
  {}

  lemma LookupFates(s: System, sid: nat, t: System)
    requires Enabled(s, Lookup(sid)) && t == Step(s, Lookup(sid)) && Grows(s, t) && StreamOk(s, sid, s.all[sid])
    requires Waiters(s.core, s.rpcs, s.heard)
    ensures Fates(t, t.all[sid])
  {
    var st := s.all[sid];
    BusyCommand(s, sid, st);
    hide Grows, Fates, StreamOk;
    if st.stage.cmd.id in s.core.waiters {
      HeldFates(s, t, st, t.all[sid]);
    } else {
      FateAdded(s, t, st, t.all[sid], Vanished);
    }
  }

  lemma TellIs(s: System, sid: nat)
    requires Enabled(s, Tell(sid))
    ensures var st, t := s.all[sid], Step(s, Tell(sid));
            && sid in t.all && t.all[sid] == st.(stage := Sweeping, fates := st.fates + [Ended(st.stage.box)])
            && !Busy(t.all[sid])
            && st.stage.box in t.core.boxes && t.core.boxes[st.stage.box].id == s.core.boxes[st.stage.box].id
            && st.stage.box in t.heard && t.heard[st.stage.box] != []
            && t.heard[st.stage.box][|t.heard[st.stage.box]| - 1] == Disconnected(st.stage.cmd.id)
  {
    hide RpcsAfter;
  }

  lemma TellFates(s: System, sid: nat, t: System)
    requires Enabled(s, Tell(sid)) && t == Step(s, Tell(sid)) && Grows(s, t) && StreamOk(s, sid, s.all[sid])
    requires Waiters(s.core, s.rpcs, s.heard)
    ensures Fates(t, t.all[sid])
  {
    hide Grows, Fates, StreamOk, Settled, Waiters, Step, Busy;
    var st := s.all[sid];
    TellIs(s, sid);
    TellBusy(s, sid, st);
    EndedSettles(t, st.stage.cmd, st.stage.box);
    FateAdded(s, t, st, t.all[sid], Ended(st.stage.box));
  }

  lemma GiveUpFates(s: System, sid: nat, t: System)
    requires Enabled(s, GiveUp(sid)) && t == Step(s, GiveUp(sid)) && Grows(s, t) && StreamOk(s, sid, s.all[sid])
    requires Waiters(s.core, s.rpcs, s.heard)
    ensures Fates(t, t.all[sid])
  {
    var st := s.all[sid];
    BusyCommand(s, sid, st);
    HeldBox(s, st);
    hide Grows, Fates, StreamOk, Waiters;
    FateAdded(s, t, st, t.all[sid], Vanished);
  }

  lemma HeldBox(s: System, st: Stream)
    requires Waiters(s.core, s.rpcs, s.heard) && Fates(s, st) && st.stage.Holding?
    ensures st.stage.box in s.core.boxes && s.core.boxes[st.stage.box].id == st.stage.cmd.id && st.stage.box in s.heard
    ensures s.core.boxes[st.stage.box].gone ==> st.stage.cmd.id in s.rpcs.removed
  {}

  lemma NewFates(t: System, st: Stream)
    requires st.drained == [] && st.fates == [] && st.stage.Open?
    ensures Fates(t, st)
  {}

  lemma MovedFates(s: System, a: Action)
    requires Enabled(s, a) && Moves(a) && Waiters(s.core, s.rpcs, s.heard) && Grows(s, Step(s, a))
    requires a.Send? ==> s.all[SidOf(s, a)].node == a.node
    requires !a.Attach? ==> StreamOk(s, SidOf(s, a), s.all[SidOf(s, a)])
    ensures Fates(Step(s, a), StreamAfter(s, a))
  {
    hide Grows, Waiters, Fates, CoreAfter, RpcsAfter, HeardAfter;
    var t := Step(s, a);
    if a.Attach? {
      NewFates(t, StreamAfter(s, a));
      return;
    }
    var st := s.all[SidOf(s, a)];
    if a.Sweep? {
      SweptFates(s, t, st, StreamAfter(s, a), s.core.queues[a.sid][0]);
    } else if a.Lookup? {
      LookupFates(s, a.sid, t);
    } else if a.Tell? {
      TellFates(s, a.sid, t);
    } else if a.GiveUp? {
      GiveUpFates(s, a.sid, t);
    } else {
      IdleFates(s, t, st, StreamAfter(s, a));
    }
  }

  lemma MovedOk(s: System, a: Action)
    requires Inv(s) && Enabled(s, a) && Moves(a) && Grows(s, Step(s, a))
    ensures StreamOk(Step(s, a), SidOf(s, a), Step(s, a).all[SidOf(s, a)])
  {
    hide Grows, Waiters, Fates, Accounts, Unique, CoreAfter, StreamAfter, RpcsAfter, HeardAfter, Ends;
    if a.Attach? {
    } else {
      assert StreamOk(s, SidOf(s, a), s.all[SidOf(s, a)]);
    }
    MovedAccounts(s, a);
    MovedUnique(s, a);
    MovedFates(s, a);
  }

  // ---------------------------------------------------------------- waiters

  lemma ParkKeeps(c: Core, r: Rpcs, heard: map<nat, seq<Output>>, id: string, node: string)
    requires Waiters(c, r, heard) && id !in r.added
    ensures Waiters(Parked(c, id, node), r.(added := r.added + {id}), heard[c.nextBox := []])
  {}

  lemma UnparkKeeps(c: Core, r: Rpcs, heard: map<nat, seq<Output>>, id: string)
    requires Waiters(c, r, heard) && id in c.waiters
    ensures Waiters(Removed(c, id), r.(removed := r.removed + {id}), heard)
  {}

  lemma TrafficKeeps(c: Core, r: Rpcs, heard: map<nat, seq<Output>>, d: Core, r': Rpcs, heard': map<nat, seq<Output>>)
    requires Waiters(c, r, heard) && SameBoxes(c, d) && heard'.Keys == heard.Keys
    requires r'.added == r.added && r'.removed == r.removed
    ensures Waiters(d, r', heard')
  {}

  lemma SameParties(s: System, a: Action)
    requires Enabled(s, a) && !a.Park? && !a.Unpark? && s.heard.Keys == s.core.boxes.Keys
    requires a.Tell? ==> s.all[a.sid].stage.box in s.core.boxes
    ensures RpcsAfter(s, a).added == s.rpcs.added && RpcsAfter(s, a).removed == s.rpcs.removed
    ensures HeardAfter(s, a).Keys == s.heard.Keys
  {}

  lemma WaitersKept(s: System, a: Action)
    requires Enabled(s, a) && Waiters(s.core, s.rpcs, s.heard)
    ensures var t := Step(s, a); Waiters(t.core, t.rpcs, t.heard)
  {
    if a.Park? {
      ParkKeeps(s.core, s.rpcs, s.heard, a.id, a.node);
    } else if a.Unpark? {
      UnparkKeeps(s.core, s.rpcs, s.heard, a.id);
    } else {
      SameParties(s, a);
      hide Waiters, CoreAfter, RpcsAfter, HeardAfter, StreamAfter;
      BoxesAfter(s, a);
      TrafficKeeps(s.core, s.rpcs, s.heard, CoreAfter(s, a), RpcsAfter(s, a), HeardAfter(s, a));
    }
  }

  // ---------------------------------------------------------------- slots

  lemma TopsAttach(all: Streams, latest: map<string, nat>, sid: nat, st: Stream)
    requires Tops(all, latest) && forall i | i in all :: i < sid
    ensures Tops(all[sid := st], latest[st.node := sid])
  {}

  lemma SlotsAttach(slots: map<string, nat>, all: Streams, latest: map<string, nat>, sid: nat, st: Stream)
    requires Slots(slots, all, latest) && Tops(all, latest) && sid !in all
    ensures Slots(slots[st.node := sid], all[sid := st], latest[st.node := sid])
  {}

  /** Streams that only move on leave the newest ones what they are. */
  lemma TopsMove(all: Streams, latest: map<string, nat>, sid: nat, st: Stream)
    requires Tops(all, latest) && sid in all && st.node == all[sid].node
    ensures Tops(all[sid := st], latest)
  {}

  /** A slot may be freed by the stream that holds it, once its handler returned. */
  lemma SlotsMove(slots: map<string, nat>, slots': map<string, nat>, all: Streams, sid: nat, st: Stream,
                  latest: map<string, nat>)
    requires Slots(slots, all, latest) && sid in all && (Live(st) ==> Live(all[sid]))
    requires forall n | n in slots' :: n in slots && slots'[n] == slots[n]
    requires forall n | n in slots && n !in slots' :: slots[n] == sid && !Live(st)
    ensures Slots(slots', all[sid := st], latest)
  {}

  lemma AttachNewest(s: System, node: string)
    requires Newest(s)
    ensures Newest(Step(s, Attach(node)))
  {
    hide Tops, Slots;
    assert forall i | i in s.all :: i in s.core.queues;
    TopsAttach(s.all, s.latest, s.core.nextStream, StreamAfter(s, Attach(node)));
    SlotsAttach(s.core.streams, s.all, s.latest, s.core.nextStream, StreamAfter(s, Attach(node)));
  }

  lemma WiredKept(s: System, a: Action)
    requires Enabled(s, a) && !a.Attach? && StreamsWired(s.core) && s.all.Keys == s.core.queues.Keys
    ensures StreamsWired(CoreAfter(s, a)) && CoreAfter(s, a).queues.Keys == s.core.queues.Keys
    ensures Moves(a) ==> SidOf(s, a) in s.all
  {
    QueuesAfter(s, a);
    SlotsAfter(s, a);
    hide CoreAfter;
  }

  lemma NewestKept(s: System, a: Action)
    requires Enabled(s, a) && Newest(s)
    ensures Newest(Step(s, a))
  {
    hide Tops, Slots, StreamsWired, CoreAfter, StreamAfter, RpcsAfter, HeardAfter, Registered;
    if a.Attach? {
      AttachNewest(s, a.node);
      return;
    }
    WiredKept(s, a);
    SlotsAfter(s, a);
    if Moves(a) {
      StreamGrows(s, a);
      GoneQuiet(s, a);
      TopsMove(s.all, s.latest, SidOf(s, a), StreamAfter(s, a));
      SlotsMove(s.core.streams, CoreAfter(s, a).streams, s.all, SidOf(s, a), StreamAfter(s, a), s.latest);
    }
  }

  lemma GoneQuiet(s: System, a: Action)
    requires Enabled(s, a)
    ensures a.HangUp? || a.SendFails? ==> !Live(StreamAfter(s, a))
  {}

  // ---------------------------------------------------------------- ends

  lemma ExplainedGrows(s: System, t: System, id: string)
    requires Grows(s, t) && Explained(s.all, s.rpcs, id)
    ensures Explained(t.all, t.rpcs, id)
  {
    if id !in s.rpcs.ended {
      assert forall c | c in s.all[s.rpcs.asked[id]].drained :: c in t.all[s.rpcs.asked[id]].drained;
    }
  }

  lemma EofGrows(os: seq<Output>, more: seq<Output>)
    requires os <= more && Eof(os)
    ensures Eof(more)
  {
    var o :| o in os && o.eof;
    assert o in more;
  }

  lemma EofLast(os: seq<Output>, o: Output)
    ensures Eof(os + [o]) <==> Eof(os) || o.eof
  {
    assert (os + [o])[|os|] == o;
    if Eof(os) {
      EofGrows(os, os + [o]);
    }
  }

  /** Whatever a step puts into a channel that ends it is explained. */
  ghost predicate HeardMore(s: System, t: System) {
    forall b | b in t.heard && b in t.core.boxes ::
      || (b !in s.heard && t.heard[b] == [])
      || (b in s.heard && b in s.core.boxes && t.heard[b] == s.heard[b])
      || (b in s.heard && b in s.core.boxes && t.heard[b] != [] && t.heard[b][..|t.heard[b]| - 1] == s.heard[b]
          && (t.heard[b][|t.heard[b]| - 1].eof ==> Explained(t.all, t.rpcs, t.core.boxes[b].id)))
  }

  lemma EndsExplained(s: System, t: System, b: nat)
    requires Ends(s) && Grows(s, t) && HeardMore(s, t) && b in t.core.boxes && b in t.heard && Eof(t.heard[b])
    ensures Explained(t.all, t.rpcs, t.core.boxes[b].id)
  {
    hide Explained;
    if b in s.heard && b in s.core.boxes {
      if Eof(s.heard[b]) {
        ExplainedGrows(s, t, s.core.boxes[b].id);
      } else if t.heard[b] != s.heard[b] {
        var n := |t.heard[b]| - 1;
        assert t.heard[b] == t.heard[b][..n] + [t.heard[b][n]];
        EofLast(t.heard[b][..n], t.heard[b][n]);
      }
    }
  }

  lemma EndedHeard(s: System, t: System, id: string)
    requires Ends(s) && Grows(s, t) && id in s.rpcs.ended
    ensures exists b | b in t.core.boxes && b in t.heard :: t.core.boxes[b].id == id && Eof(t.heard[b])
  {
    var b :| b in s.core.boxes && b in s.heard && s.core.boxes[b].id == id && Eof(s.heard[b]);
    EofGrows(s.heard[b], t.heard[b]);
  }

  lemma GotGrows(s: System, t: System, id: string)
    requires Grows(s, t) && Got(s.all, s.rpcs, id)
    ensures Got(t.all, t.rpcs, id)
  {
    assert forall c | c in s.all[s.rpcs.asked[id]].delivered :: c in t.all[s.rpcs.asked[id]].delivered;
  }

  /** One more output in one channel. */
  lemma OneMore(s: System, t: System, b: nat, out: Output)
    requires SameBoxes(s.core, t.core) && s.heard.Keys == s.core.boxes.Keys && b in s.heard
    requires t.heard == s.heard[b := s.heard[b] + [out]]
    requires out.eof ==> Explained(t.all, t.rpcs, s.core.boxes[b].id)
    ensures HeardMore(s, t) && b in t.core.boxes && t.core.boxes[b].id == s.core.boxes[b].id
    ensures out.eof ==> Eof(t.heard[b])
  {
    hide Explained;
    EofLast(s.heard[b], out);
    assert t.heard[b][..|t.heard[b]| - 1] == s.heard[b];
  }

  lemma WaiterKeys(s: System)
    requires Waiters(s.core, s.rpcs, s.heard)
    ensures s.heard.Keys == s.core.boxes.Keys
  {}

  lemma TellBusy(s: System, sid: nat, st: Stream)
    requires StreamOk(s, sid, st) && st.stage.Holding? && Waiters(s.core, s.rpcs, s.heard)
    ensures var cmd := st.stage.cmd;
            && cmd.Logs? && cmd in st.drained && cmd.id in s.rpcs.asked && s.rpcs.asked[cmd.id] == sid
            && st.stage.box in s.core.boxes && s.core.boxes[st.stage.box].id == cmd.id && st.stage.box in s.heard
    ensures Fates(s, st) && Busy(st)
  {
    BusyCommand(s, sid, st);
    HeldBox(s, st);
  }

  lemma TellExplained(s: System, sid: nat, t: System)
    requires Enabled(s, Tell(sid)) && t == Step(s, Tell(sid))
    requires Waiters(s.core, s.rpcs, s.heard) && StreamOk(s, sid, s.all[sid])
    ensures HeardMore(s, t) && t.rpcs == s.rpcs
  {
    var st := s.all[sid];
    hide CoreAfter, StreamOk, Waiters, HeardMore, Fates, Busy;
    WaiterKeys(s);
    TellBusy(s, sid, st);
    BoxesAfter(s, Tell(sid));
    assert t.all[sid].drained == st.drained;
    assert Explained(t.all, t.rpcs, st.stage.cmd.id);
    OneMore(s, t, st.stage.box, Disconnected(st.stage.cmd.id));
  }

  lemma PushExplained(s: System, b: nat, out: Output, t: System)
    requires s.heard.Keys == s.core.boxes.Keys && Enabled(s, Push(b, out)) && t == Step(s, Push(b, out))
    ensures HeardMore(s, t) && t.rpcs.running == s.rpcs.running
    ensures t.rpcs.ended == if out.eof then s.rpcs.ended + {out.id} else s.rpcs.ended
    ensures b in t.core.boxes && t.core.boxes[b].id == out.id && b in t.heard && (out.eof ==> Eof(t.heard[b]))
  {
    BoxesAfter(s, Push(b, out));
    hide CoreAfter, HeardMore, Eof;
    OneMore(s, t, b, out);
  }

  lemma QuietHeard(s: System, a: Action, t: System)
    requires Waiters(s.core, s.rpcs, s.heard) && Enabled(s, a) && t == Step(s, a) && !a.Tell? && !a.Push?
    ensures HeardMore(s, t) && t.rpcs.ended == s.rpcs.ended
    ensures t.rpcs.running
         == if a.Deliver? && s.all[a.sid].stage.cmd.Logs? then s.rpcs.running + {s.all[a.sid].stage.cmd.id}
            else s.rpcs.running
  {
    if !a.Park? && !a.Unpark? {
      BoxesAfter(s, a);
      hide CoreAfter;
    }
  }

  lemma DeliverGot(s: System, sid: nat, t: System)
    requires sid in s.all && StreamOk(s, sid, s.all[sid]) && s.all[sid].stage.Handing? && s.all[sid].stage.cmd.Logs?
    requires sid in t.all && t.all[sid].delivered == s.all[sid].delivered + [s.all[sid].stage.cmd]
    requires t.rpcs.asked == s.rpcs.asked
    ensures Got(t.all, t.rpcs, s.all[sid].stage.cmd.id)
  {
    var st := s.all[sid];
    HandAccepted(s.core, sid, st);
    assert t.all[sid].delivered[|st.delivered|] == st.stage.cmd;
  }

  lemma DeliverIs(s: System, sid: nat)
    requires Enabled(s, Deliver(sid))
    ensures var t := Step(s, Deliver(sid));
            && sid in t.all && t.all[sid].delivered == s.all[sid].delivered + [s.all[sid].stage.cmd]
            && t.rpcs.asked == s.rpcs.asked
  {}

  /** The step's own news: what it may add to the commands agents hold or ended. */
  lemma News(s: System, a: Action, t: System)
    requires Inv(s) && Enabled(s, a) && t == Step(s, a)
    ensures HeardMore(s, t)
    ensures forall id | id in t.rpcs.running && id !in s.rpcs.running :: Got(t.all, t.rpcs, id)
    ensures forall id | id in t.rpcs.ended && id !in s.rpcs.ended ::
              && id in t.rpcs.running
              && exists b | b in t.core.boxes && b in t.heard :: t.core.boxes[b].id == id && Eof(t.heard[b])
  {
    hide Inv, Newest, Ends, StreamOk, HeardMore, Eof, Got, Waiters, CoreAfter, StreamAfter, HeardAfter, RpcsAfter;
    InvParts(s);
    if a.Tell? {
      TellExplained(s, a.sid, t);
    } else if a.Push? {
      PushExplained(s, a.box, a.out, t);
    } else {
      QuietHeard(s, a, t);
      if a.Deliver? && s.all[a.sid].stage.cmd.Logs? {
        DeliverIs(s, a.sid);
        DeliverGot(s, a.sid, t);
      }
    }
  }

  lemma EndsKept(s: System, a: Action, t: System)
    requires Inv(s) && Enabled(s, a) && t == Step(s, a) && Grows(s, t)
    ensures Ends(t)
  {
    hide Inv, Step, Grows, HeardMore, Explained, Eof, Enabled, Waiters, Got, Newest, StreamOk, StreamsWired, BoxesWired;
    InvParts(s);
    News(s, a, t);
    forall b | b in t.core.boxes && b in t.heard && Eof(t.heard[b])
      ensures Explained(t.all, t.rpcs, t.core.boxes[b].id)
    {
      EndsExplained(s, t, b);
    }
    forall id | id in s.rpcs.ended
      ensures exists b | b in t.core.boxes && b in t.heard :: t.core.boxes[b].id == id && Eof(t.heard[b])
    {
      EndedHeard(s, t, id);
    }
    forall id | id in s.rpcs.running ensures Got(t.all, t.rpcs, id) {
      GotGrows(s, t, id);
    }
    RunningGrows(s, t);
  }

  lemma RunningGrows(s: System, t: System)
    requires Grows(s, t)
    ensures s.rpcs.running <= t.rpcs.running
  {}

  // ---------------------------------------------------------------- over whole runs

  lemma InvParts(s: System)
    requires Inv(s)
    ensures Waiters(s.core, s.rpcs, s.heard) && Newest(s) && Ends(s)
    ensures BoxesWired(s.core) && s.heard.Keys == s.core.boxes.Keys
    ensures StreamsWired(s.core) && s.all.Keys == s.core.queues.Keys
    ensures forall sid | sid in s.all :: StreamOk(s, sid, s.all[sid])
  {}

  lemma EachOk(s: System, a: Action, sid: nat)
    requires Inv(s) && Enabled(s, a) && Grows(s, Step(s, a)) && sid in Step(s, a).all
    ensures StreamOk(Step(s, a), sid, Step(s, a).all[sid])
  {
    hide Inv, Waiters, Newest, Ends, StreamOk, Grows, Enabled, CoreAfter, StreamAfter, RpcsAfter, HeardAfter, SidOf;
    InvParts(s);
    if Moves(a) && sid == SidOf(s, a) {
      MovedOk(s, a);
    } else {
      OtherOk(s, a, sid);
    }
  }

  lemma NextKeepsInv(s: System, a: Action)
    requires Inv(s) && Enabled(s, a)
    ensures Inv(Step(s, a))
  {
    hide Inv, Waiters, Newest, Ends, StreamOk, Grows, Enabled, Step, BoxesWired, StreamsWired;
    var t := Step(s, a);
    InvParts(s);
    StepGrows(s, a);
    WaitersKept(s, a);
    NewestKept(s, a);
    EndsKept(s, a, t);
    forall sid | sid in t.all ensures StreamOk(t, sid, t.all[sid]) {
      EachOk(s, a, sid);
    }
    InvWhole(t);
  }

  lemma InvWhole(t: System)
    requires Waiters(t.core, t.rpcs, t.heard) && Newest(t) && Ends(t)
    requires forall sid | sid in t.all :: StreamOk(t, sid, t.all[sid])
    ensures Inv(t)
  {}

  lemma {:induction false} RunKeepsInv(tr: seq<System>, acts: seq<Action>, i: nat)
    requires Run(tr, acts) && i < |tr|
    ensures Inv(tr[i])
  {
    hide Inv, Step, Enabled;
    if i == 0 {
      BootInv();
    } else {
      RunKeepsInv(tr, acts, i - 1);
      NextKeepsInv(tr[i - 1], acts[i - 1]);
    }
  }

  lemma BootInv()
    ensures Inv(Boot())
  {}

  /**
   Exactly once: what send accepted, in order, is what went to the agent, what
   the handler has in hand or lost there, what detach took, and what still
   waits; at most one command is ever lost, and a closed stream has nothing waiting.
   */
  lemma LeavesExactlyOnce(tr: seq<System>, acts: seq<Action>, i: nat, sid: nat)
    requires Run(tr, acts) && i < |tr| && sid in tr[i].all
    ensures var s, st := tr[i], tr[i].all[sid];
            && sid in s.core.queues && st.accepted == st.delivered + Hand(st) + st.drained + s.core.queues[sid]
            && (st.stage.Closed? ==> st.accepted == st.delivered + st.lost + st.drained)
  {
    RunKeepsInv(tr, acts, i);
    hide Waiters, Newest, Ends;
    assert StreamOk(tr[i], sid, tr[i].all[sid]);
  }

  lemma OneOfThree(st: Stream, id: string)
    requires st.accepted == st.delivered + st.lost + st.drained && Logs(id) in st.accepted
    requires forall i, j | 0 <= i < j < |st.accepted| && st.accepted[i].Logs? :: st.accepted[i] != st.accepted[j]
    ensures var d, l, r := Logs(id) in st.delivered, Logs(id) in st.lost, Logs(id) in st.drained;
            (d || l || r) && !(d && l) && !(d && r) && !(l && r)
  {
    var nd, nl := |st.delivered|, |st.lost|;
    if Logs(id) in st.delivered {
      var i :| 0 <= i < nd && st.delivered[i] == Logs(id);
      assert st.accepted[i] == Logs(id);
    }
    if Logs(id) in st.lost {
      var i :| 0 <= i < nl && st.lost[i] == Logs(id);
      assert st.accepted[nd + i] == Logs(id);
    }
    if Logs(id) in st.drained {
      var i :| 0 <= i < |st.drained| && st.drained[i] == Logs(id);
      assert st.accepted[nd + nl + i] == Logs(id);
    }
  }

  lemma DrainedHeard(s: System, st: Stream, id: string)
    requires Fates(s, st) && Waiters(s.core, s.rpcs, s.heard) && !Busy(st) && Logs(id) in st.drained
    requires id in s.core.waiters
    ensures s.core.waiters[id] in s.heard && Eof(s.heard[s.core.waiters[id]])
  {
    var k :| 0 <= k < |st.drained| && st.drained[k] == Logs(id);
    assert Settled(s, st.drained[k], st.fates[k]);
  }

  /** What a parked waiter's end, or an ended command, tells about the command's stream. */
  lemma EndMeans(s: System, sid: nat, id: string)
    requires Ends(s) && Waiters(s.core, s.rpcs, s.heard) && id in s.core.waiters
    requires sid in s.all && id in s.rpcs.asked && s.rpcs.asked[id] == sid
    ensures s.core.waiters[id] in s.heard
    ensures Eof(s.heard[s.core.waiters[id]]) ==> id in s.rpcs.ended || Logs(id) in s.all[sid].drained
    ensures id in s.rpcs.ended ==> Eof(s.heard[s.core.waiters[id]]) && Logs(id) in s.all[sid].delivered
  {
    hide Eof;
    WaiterBoxIs(s, id);
    if id in s.rpcs.ended {
      assert Got(s.all, s.rpcs, id);
    }
  }

  /**
   Who hangs: the parked waiter of a command its stream accepted hears no end,
   once the stream closed, exactly when the command was lost in a failed send
   or its agent got it and has not ended it.
   */
  lemma UnheardIffLost(tr: seq<System>, acts: seq<Action>, i: nat, sid: nat, id: string)
    requires Run(tr, acts) && i < |tr| && sid in tr[i].all && tr[i].all[sid].stage.Closed?
    requires Logs(id) in tr[i].all[sid].accepted && id in tr[i].core.waiters
    ensures var s, st := tr[i], tr[i].all[sid];
            && s.core.waiters[id] in s.heard
            && (!Eof(s.heard[s.core.waiters[id]]) <==>
                  Logs(id) in st.lost || (Logs(id) in st.delivered && id !in s.rpcs.ended))
  {
    var s, st := tr[i], tr[i].all[sid];
    RunKeepsInv(tr, acts, i);
    InvParts(s);
    ClosedOk(s, sid, st);
    hide Inv, Run, Eof, Ends, Waiters, StreamOk, Newest;
    OneOfThree(st, id);
    EndMeans(s, sid, id);
    if Logs(id) in st.drained {
      DrainedHeard(s, st, id);
    }
  }

  lemma ClosedOk(s: System, sid: nat, st: Stream)
    requires StreamOk(s, sid, st) && st.stage.Closed?
    ensures Fates(s, st) && !Busy(st) && st.accepted == st.delivered + st.lost + st.drained
    ensures forall c | c in st.accepted && c.Logs? :: c.id in s.rpcs.asked && s.rpcs.asked[c.id] == sid
    ensures forall i, j | 0 <= i < j < |st.accepted| && st.accepted[i].Logs? :: st.accepted[i] != st.accepted[j]
  {}

  lemma Extend(tr: seq<System>, acts: seq<Action>, a: Action) returns (tr': seq<System>, acts': seq<Action>)
    requires Run(tr, acts) && Enabled(tr[|acts|], a)
    ensures Run(tr', acts') && |acts'| == |acts| + 1 && tr'[|acts'|] == Step(tr[|acts|], a)
  {
    hide Step, Enabled;
    tr', acts' := tr + [Step(tr[|acts|], a)], acts + [a];
  }

  /** A waiter, its command in the queue of a node's stream. */
  lemma OneQueued() returns (tr: seq<System>, acts: seq<Action>)
    ensures Run(tr, acts)
    ensures tr[|acts|] == System(Core(map["n" := 0], map[0 := [Logs("x")]], 1, map["x" := 0],
                                      map[0 := Box("x", "n", [], false)], 1),
                                 map[0 := Stream("n", Open, [Logs("x")], [], [], [], [])],
                                 Rpcs({"x"}, {}, map["x" := 0], {}, {}), map[0 := []], map["n" := 0])
  {
    tr, acts := [Boot()], [];
    tr, acts := Extend(tr, acts, Park("x", "n"));
    tr, acts := Extend(tr, acts, Attach("n"));
    assert tr[2].core.streams == map["n" := 0] && tr[2].core.queues == map[0 := []];
    assert [] + [Logs("x")] == [Logs("x")];
    tr, acts := Extend(tr, acts, Send("n", Logs("x")));
    assert tr[3].rpcs == Rpcs({"x"}, {}, map["x" := 0], {}, {});
    assert tr[3].core.queues == map[0 := [Logs("x")]];
    assert tr[3].all == map[0 := Stream("n", Open, [Logs("x")], [], [], [], [])];
  }

  /** A waiter does hang: its command is taken off the queue, the send fails, and the sweep finds nothing to end. */
  lemma LostSendHangs() returns (tr: seq<System>, acts: seq<Action>)
    ensures Run(tr, acts)
    ensures var s := tr[|acts|];
            && 0 in s.all && s.all[0].stage.Closed? && Logs("x") in s.all[0].accepted && Logs("x") in s.all[0].lost
            && "x" in s.core.waiters && s.core.waiters["x"] in s.heard && s.heard[s.core.waiters["x"]] == []
  {
    tr, acts := OneQueued();
    tr, acts := Extend(tr, acts, Take(0));
    assert tr[|acts|].core.queues == map[0 := []];
    tr, acts := Extend(tr, acts, SendFails(0));
    tr, acts := Extend(tr, acts, Finish(0));
  }

  /** A parked waiter's channel is the only one of its id. */
  lemma WaiterBoxIs(s: System, id: string)
    requires Waiters(s.core, s.rpcs, s.heard) && id in s.core.waiters
    ensures s.core.waiters[id] in s.core.boxes && s.core.waiters[id] in s.heard
    ensures forall b | b in s.core.boxes && s.core.boxes[b].id == id :: b == s.core.waiters[id]
  {}

  /** Commands only ever reach the newest stream of a node, and it stays reachable until its own handler returns. */
  lemma NewestIsRegistered(tr: seq<System>, acts: seq<Action>, i: nat, sid: nat)
    requires Run(tr, acts) && i < |tr| && sid in tr[i].all
    ensures var s, st := tr[i], tr[i].all[sid];
            Registered(s.core, sid, st) <==> Live(st) && forall j | j in s.all && s.all[j].node == st.node :: j <= sid
  {
    hide Inv, Waiters, Ends, StreamOk, Newest;
    RunKeepsInv(tr, acts, i);
    InvParts(tr[i]);
    RegisteredNewest(tr[i], sid);
  }

  lemma RegisteredNewest(s: System, sid: nat)
    requires Newest(s) && sid in s.all && StreamOk(s, sid, s.all[sid])
    ensures Registered(s.core, sid, s.all[sid]) <==>
        Live(s.all[sid]) && forall j | j in s.all && s.all[j].node == s.all[sid].node :: j <= sid
  {
    hide Fates, Unique, StreamsWired;
    var n := s.all[sid].node;
    assert s.latest[n] in s.all && s.all[s.latest[n]].node == n;
  }

  /** Detaching a displaced stream never evicts the one that took its place. */
  lemma DetachKeepsNewer(s: System, a: Action, n: string)
    requires Enabled(s, a) && (a.HangUp? || a.SendFails?) && n in s.core.streams && s.core.streams[n] != a.sid
    ensures n in Step(s, a).core.streams && Step(s, a).core.streams[n] == s.core.streams[n]
  {
    hide CoreAfter;
    SlotsAfter(s, a);
  }

  /** A waiter parked under an id keeps its channel, and the channel its node, until it is removed. */
  lemma ParkedStep(s: System, a: Action, id: string)
    requires Waiters(s.core, s.rpcs, s.heard) && Enabled(s, a) && id in s.rpcs.added && id in Step(s, a).core.waiters
    ensures var t := Step(s, a);
            && id in s.core.waiters && t.core.waiters[id] == s.core.waiters[id]
            && (s.core.waiters[id] in s.core.boxes ==>
                  && s.core.waiters[id] in t.core.boxes
                  && t.core.boxes[s.core.waiters[id]].node == s.core.boxes[s.core.waiters[id]].node)
  {
    BoxesGrow(s, a);
    if !a.Park? && !a.Unpark? {
      hide CoreAfter;
      BoxesAfter(s, a);
    }
  }

  lemma ParkIs(s: System, id: string, node: string)
    requires Enabled(s, Park(id, node))
    ensures var t := Step(s, Park(id, node));
            && id in t.rpcs.added && id in t.core.waiters && t.core.waiters[id] in t.core.boxes
            && t.core.boxes[t.core.waiters[id]].node == node
  {}

  /** As long as a command has a waiter, its output is accepted from the node the command was sent to and no other. */
  lemma {:induction false} WaiterNodeFixed(tr: seq<System>, acts: seq<Action>, i: nat, j: nat, id: string, node: string)
    requires Run(tr, acts) && i < j < |tr| && acts[i] == Park(id, node) && id in tr[j].core.waiters
    ensures tr[j].core.waiters[id] in tr[j].core.boxes && tr[j].core.boxes[tr[j].core.waiters[id]].node == node
    decreases j
  {
    hide Inv, Step, Enabled, Waiters, Newest, Ends, StreamOk, BoxesWired, StreamsWired;
    assert Enabled(tr[i], acts[i]) && tr[i + 1] == Step(tr[i], acts[i]);
    ParkIs(tr[i], id, node);
    if i + 1 < j {
      var s, a := tr[j - 1], acts[j - 1];
      assert Enabled(s, a) && tr[j - 1 + 1] == Step(s, a);
      StaysAdded(tr, acts, i + 1, j - 1, id);
      RunKeepsInv(tr, acts, j - 1);
      InvParts(s);
      ParkedStep(s, a, id);
      WaiterNodeFixed(tr, acts, i, j - 1, id, node);
    }
  }

  /** An id parked once is in use for good. */
  lemma {:induction false} StaysAdded(tr: seq<System>, acts: seq<Action>, i: nat, j: nat, id: string)
    requires Run(tr, acts) && i <= j < |tr| && id in tr[i].rpcs.added
    ensures id in tr[j].rpcs.added
    decreases j
  {
    if i < j {
      hide Step, Enabled;
      StaysAdded(tr, acts, i, j - 1, id);
      StepAdds(tr[j - 1], acts[j - 1]);
    }
  }

  lemma StepAdds(s: System, a: Action)
    requires Enabled(s, a)
    ensures s.rpcs.added <= Step(s, a).rpcs.added
  {
    hide CoreAfter, StreamAfter, HeardAfter;
  }

  // ---------------------------------------------------------------- what may happen when

  /** What a stream may do next, by the stage it is in. */
  lemma StreamMay(s: System, sid: nat)
    requires sid in s.all && sid in s.core.queues
    ensures var stage, queue := s.all[sid].stage, s.core.queues[sid];
            && (Enabled(s, HangUp(sid)) <==> stage == Open) && (Enabled(s, Take(sid)) <==> stage == Open && |queue| > 0)
            && (Enabled(s, Deliver(sid)) <==> stage.Handing?) && (Enabled(s, SendFails(sid)) <==> stage.Handing?)
            && (Enabled(s, Sweep(sid)) <==> stage == Sweeping && |queue| > 0)
            && (Enabled(s, Finish(sid)) <==> stage == Sweeping && |queue| == 0)
            && (Enabled(s, Lookup(sid)) <==> stage.Routing?)
    ensures var stage := s.all[sid].stage;
            && (Enabled(s, Tell(sid)) <==>
                  stage.Holding? && stage.box in s.core.boxes && |s.core.boxes[stage.box].buffer| < 16)
            && (Enabled(s, GiveUp(sid)) <==>
                  stage.Holding? && stage.box in s.core.boxes && s.core.boxes[stage.box].gone)
  {}

  /** What Logs RPCs and agents may do: an id is parked once, its command sent once, and a received one answered. */
  lemma CallersMay(s: System, id: string, node: string, b: nat, out: Output)
    ensures Enabled(s, Attach(node)) && (Enabled(s, Park(id, node)) <==> id !in s.rpcs.added)
    ensures Enabled(s, Unpark(id)) <==> id in s.core.waiters
    ensures Enabled(s, Send(node, Logs(id))) <==>
        && node in s.core.streams && s.core.streams[node] in s.all && s.core.streams[node] in s.core.queues
        && |s.core.queues[s.core.streams[node]]| < 16 && id in s.rpcs.added && id !in s.rpcs.asked
    ensures Enabled(s, Send(node, Stop(id))) <==>
        && node in s.core.streams && s.core.streams[node] in s.all && s.core.streams[node] in s.core.queues
        && |s.core.queues[s.core.streams[node]]| < 16
    ensures Enabled(s, Push(b, out)) <==>
        && b in s.core.boxes && s.core.boxes[b].id == out.id && |s.core.boxes[b].buffer| < 16
        && out.id in s.rpcs.running
    ensures Enabled(s, Read(b)) <==> b in s.core.boxes && |s.core.boxes[b].buffer| > 0
  {}

  /** No queue and no channel ever holds more than its sixteen slots. */
  ghost predicate Bounded(c: Core) {
    && (forall sid | sid in c.queues :: |c.queues[sid]| <= 16) && (forall b | b in c.boxes :: |c.boxes[b].buffer| <= 16)
  }

  lemma {:induction false} RunBounded(tr: seq<System>, acts: seq<Action>, i: nat)
    requires Run(tr, acts) && i < |tr|
    ensures Bounded(tr[i].core)
  {
    hide Enabled, Step;
    if i > 0 {
      RunBounded(tr, acts, i - 1);
      assert Enabled(tr[i - 1], acts[i - 1]) && tr[i - 1 + 1] == Step(tr[i - 1], acts[i - 1]);
      StepBounded(tr[i - 1], acts[i - 1]);
    }
  }

  lemma StepBounded(s: System, a: Action)
    requires Enabled(s, a) && Bounded(s.core)
    ensures Bounded(Step(s, a).core)
  {
    hide StreamAfter, HeardAfter, RpcsAfter, BoxCore, StreamCore, Enabled, Bounded;
    if OnBoxes(a) {
      BoxesBounded(s, a);
    } else {
      QueuesBounded(s, a);
    }
  }

  lemma BoxesBounded(s: System, a: Action)
    requires Enabled(s, a) && OnBoxes(a) && Bounded(s.core)
    ensures Bounded(BoxCore(s, a))
  {}

  lemma QueuesBounded(s: System, a: Action)
    requires Enabled(s, a) && !OnBoxes(a) && Bounded(s.core)
    ensures Bounded(StreamCore(s, a))
  {}
}
