/**
 The command hub: Logs RPCs on one side, agents' command streams on the other.

 `Core` is the hub's memory and its functions are the critical sections;
 `Hub` is the class that runs them one at a time. HubRuns interleaves them the
 way goroutines do.
 */
module CommandHub {
  import opened Store

  datatype Command = Logs(id: string) | Stop(id: string)

  datatype Output = Output(id: string, data: string, eof: bool)

  const QUEUE: nat := 16

  /** A waiter's channel: its command, the node whose pushes may land here, and what is buffered. */
  datatype Box = Box(id: string, node: string, buffer: seq<Output>, gone: bool)

  datatype Core = Core(streams: map<string, nat>, queues: map<nat, seq<Command>>, nextStream: nat,
                       waiters: map<string, nat>, boxes: map<nat, Box>, nextBox: nat)

  ghost predicate StreamsWired(c: Core) {
    && (forall n | n in c.streams :: c.streams[n] in c.queues)
    && (forall i | i in c.queues :: i < c.nextStream)
  }

  ghost predicate BoxesWired(c: Core) {
    && (forall id | id in c.waiters ::
          c.waiters[id] in c.boxes && c.boxes[c.waiters[id]].id == id && !c.boxes[c.waiters[id]].gone)
    && (forall b | b in c.boxes :: b < c.nextBox)
  }

  ghost predicate Wired(c: Core) {
    StreamsWired(c) && BoxesWired(c)
  }

  function Attached(c: Core, node: string): Core {
    c.(streams := c.streams[node := c.nextStream], queues := c.queues[c.nextStream := []],
       nextStream := c.nextStream + 1)
  }

  function Forgotten(c: Core, node: string, sid: nat): Core {
    if node in c.streams && c.streams[node] == sid then c.(streams := c.streams - {node}) else c
  }

  predicate Accepts(c: Core, node: string) {
    node in c.streams && c.streams[node] in c.queues && |c.queues[c.streams[node]]| < QUEUE
  }

  function Sent(c: Core, node: string, cmd: Command): Core
    requires Accepts(c, node)
  {
    var sid := c.streams[node];
    c.(queues := c.queues[sid := c.queues[sid] + [cmd]])
  }

  function Popped(c: Core, sid: nat): Core
    requires sid in c.queues && c.queues[sid] != []
  {
    c.(queues := c.queues[sid := c.queues[sid][1..]])
  }

  function Parked(c: Core, id: string, node: string): Core {
    c.(waiters := c.waiters[id := c.nextBox], boxes := c.boxes[c.nextBox := Box(id, node, [], false)],
       nextBox := c.nextBox + 1)
  }

  function Removed(c: Core, id: string): Core {
    if id in c.waiters && c.waiters[id] in c.boxes
    then var b := c.waiters[id]; c.(waiters := c.waiters - {id}, boxes := c.boxes[b := c.boxes[b].(gone := true)])
    else c
  }

  function Put(c: Core, b: nat, out: Output): Core
    requires b in c.boxes
  {
    c.(boxes := c.boxes[b := c.boxes[b].(buffer := c.boxes[b].buffer + [out])])
  }

  function Disconnected(id: string): Output {
    Output(id, "the node's agent disconnected before running the command\n", true)
  }

  class Hub {
    var streams: map<string, nat>
    var queues: map<nat, seq<Command>>
    var nextStream: nat
    var waiters: map<string, nat>
    var boxes: map<nat, Box>
    var nextBox: nat

    ghost function State(): Core
      reads this
    {
      Core(streams, queues, nextStream, waiters, boxes, nextBox)
    }

    constructor ()
      ensures Wired(State()) && State() == Core(map[], map[], 0, map[], map[], 0)
    {
      streams, queues, nextStream, waiters, boxes, nextBox := map[], map[], 0, map[], map[], 0;
    }

    method Attach(node: string) returns (sid: nat)
      requires Wired(State())
      modifies this
      ensures Wired(State()) && State() == Attached(old(State()), node) && sid == old(nextStream)
    {
      sid := nextStream;
      queues := queues[sid := []];
      nextStream := nextStream + 1;
      streams := streams[node := sid];
    }

    /** Frees the node's slot if it is still this stream's, and sweeps the queue. */
    method Detach(node: string, sid: nat)
      requires Wired(State()) && sid in queues
      modifies this
      ensures Wired(State())
      ensures State() == Forgotten(old(State()), node, sid).(queues := old(queues)[sid := []],
                                                             boxes := Swept(old(waiters), old(boxes), old(queues)[sid]))
    {
      hide Swept, Wired, Told;
      ForgottenWired(State(), node, sid);
      if node in streams && streams[node] == sid {
        streams := streams - {node};
      }
      ghost var all, start, k := queues[sid], State(), 0;
      SweptNone(waiters, boxes);
      while |queues[sid]| > 0
        invariant k <= |all| && sid in queues && queues == start.queues[sid := all[k..]]
        invariant boxes == Swept(start.waiters, start.boxes, all[..k])
        invariant State() == start.(queues := queues, boxes := boxes) && Wired(State())
        decreases |all| - k
      {
        SweptStep(start.waiters, start.boxes, all, k);
        SweepOne(sid);
        k := k + 1;
      }
      assert all[..k] == all;
    }

    /** Takes the oldest command off a queue and routes an end of output to its waiter. */
    method SweepOne(sid: nat)
      requires Wired(State()) && sid in queues && queues[sid] != []
      modifies this`queues, this`boxes
      ensures Wired(State()) && queues == old(queues)[sid := old(queues)[sid][1..]]
      ensures boxes == Told(waiters, old(boxes), old(queues)[sid][0])
    {
      hide Wired;
      var cmd := queues[sid][0];
      RequeuedWired(State(), sid, queues[sid][1..]);
      queues := queues[sid := queues[sid][1..]];
      if cmd.Logs? {
        WaiterBox(State(), cmd.id);
        var _ := Route(Disconnected(cmd.id));
      }
    }

    method Send(node: string, cmd: Command) returns (ok: bool)
      requires Wired(State())
      modifies this`queues
      ensures Wired(State()) && ok == Accepts(old(State()), node)
      ensures State() == if ok then Sent(old(State()), node, cmd) else old(State())
    {
      if node !in streams {
        return false;
      }
      var sid := streams[node];
      ok := |queues[sid]| < QUEUE;
      if ok {
        queues := queues[sid := queues[sid] + [cmd]];
      }
    }

    method AddWaiter(id: string, node: string) returns (b: nat)
      requires Wired(State())
      modifies this
      ensures Wired(State()) && State() == Parked(old(State()), id, node) && b == old(nextBox)
    {
      b := nextBox;
      boxes := boxes[b := Box(id, node, [], false)];
      nextBox := nextBox + 1;
      waiters := waiters[id := b];
    }

    method WaiterNode(id: string) returns (node: Option<string>)
      requires Wired(State())
      ensures node == if id in waiters then Some(boxes[waiters[id]].node) else None
    {
      node := if id in waiters then Some(boxes[waiters[id]].node) else None;
    }

    method RemoveWaiter(id: string)
      requires Wired(State())
      modifies this`waiters, this`boxes
      ensures Wired(State()) && State() == Removed(old(State()), id) && id !in waiters
    {
      if id in waiters {
        var b := waiters[id];
        waiters := waiters - {id};
        boxes := boxes[b := boxes[b].(gone := true)];
      }
    }

    /** Hands one message to its waiter; run alone, the waiter's reader is taken to make room. */
    method Route(out: Output) returns (ok: bool)
      requires Wired(State())
      modifies this`boxes
      ensures Wired(State()) && ok == (out.id in waiters)
      ensures State() == if ok then Put(old(State()), waiters[out.id], out) else old(State())
    {
      if out.id !in waiters {
        return false;
      }
      var b := waiters[out.id];
      boxes := boxes[b := boxes[b].(buffer := boxes[b].buffer + [out])];
      ok := true;
    }
  }

  /** The boxes after one command's waiter, if there is one, was told it ended. */
  function Told(waiters: map<string, nat>, boxes: map<nat, Box>, cmd: Command): map<nat, Box> {
    if cmd.Logs? && cmd.id in waiters && waiters[cmd.id] in boxes then
      var b := waiters[cmd.id];
      boxes[b := boxes[b].(buffer := boxes[b].buffer + [Disconnected(cmd.id)])]
    else boxes
  }

  /** The boxes after a queue was swept in order. */
  function Swept(waiters: map<string, nat>, boxes: map<nat, Box>, q: seq<Command>): map<nat, Box> {
    if q == [] then boxes else Told(waiters, Swept(waiters, boxes, q[..|q| - 1]), q[|q| - 1])
  }

  lemma SweptNone(waiters: map<string, nat>, boxes: map<nat, Box>)
    ensures Swept(waiters, boxes, []) == boxes
  {}

  lemma SweptStep(waiters: map<string, nat>, boxes: map<nat, Box>, q: seq<Command>, k: nat)
    requires k < |q|
    ensures Swept(waiters, boxes, q[..k + 1]) == Told(waiters, Swept(waiters, boxes, q[..k]), q[k])
  {
    assert q[..k + 1][..k] == q[..k];
  }

  lemma ForgottenWired(c: Core, node: string, sid: nat)
    requires Wired(c)
    ensures Wired(Forgotten(c, node, sid))
  {}

  lemma RequeuedWired(c: Core, sid: nat, q: seq<Command>)
    requires Wired(c) && sid in c.queues
    ensures Wired(c.(queues := c.queues[sid := q]))
  {}

  lemma WaiterBox(c: Core, id: string)
    requires Wired(c)
    ensures id in c.waiters ==> c.waiters[id] in c.boxes
  {}

  /** No waiter of a swept command is left hanging, and nobody else hears anything. */
  lemma {:induction false} SweepTells(waiters: map<string, nat>, boxes: map<nat, Box>, q: seq<Command>, id: string,
                                      b: nat)
    requires b in boxes && (id in waiters ==> waiters[id] == b) && forall i | i in waiters && i != id :: waiters[i] != b
    ensures b in Swept(waiters, boxes, q)
    ensures var after := Swept(waiters, boxes, q)[b];
            && after == boxes[b].(buffer := after.buffer)
            && (if id in waiters && Logs(id) in q then Disconnected(id) in after.buffer else after == boxes[b])
  {
    if q != [] {
      var init, last := q[..|q| - 1], q[|q| - 1];
      SweepTells(waiters, boxes, init, id, b);
      assert q == init + [last];
    }
  }
}
