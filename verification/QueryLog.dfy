/** The fixed ring of DNS answers a node served, and a poller that follows it. */
module QueryLog {
  import opened Order

  datatype Entry = Entry(source: string, service: string, at: int)

  const CAPACITY: nat := 4096
  const RETENTION: int := 30000

  function Filled(n: nat): nat {
    if n < CAPACITY then n else CAPACITY
  }

  /** The entries a ring still holds: the last CAPACITY of the full history. */
  function Retained(h: seq<Entry>): seq<Entry> {
    h[|h| - Filled(|h|)..]
  }

  function Floor(since: int, now: int): int {
    if since > now - RETENTION then since else now - RETENTION
  }

  function AtLeast(floor: int): Entry -> seq<Entry> {
    (e: Entry) => if e.at >= floor then [e] else []
  }

  /** What a read at time `now` with cursor `since` answers, oldest first. */
  function Answer(h: seq<Entry>, since: int, now: int): seq<Entry> {
    Collect(Retained(h), AtLeast(Floor(since, now)))
  }

  class Ring {
    const buf: array<Entry>
    var next: nat
    var size: nat
    ghost var history: seq<Entry>

    ghost predicate Valid()
      reads this, buf
    {
      && buf.Length == CAPACITY && next == |history| % CAPACITY && size == Filled(|history|)
      && (forall j | |history| - size <= j < |history| :: buf[j % CAPACITY] == history[j])
    }

    constructor ()
      ensures Valid() && history == [] && fresh(buf)
    {
      buf := new Entry[CAPACITY](_ => Entry("", "", 0));
      next, size, history := 0, 0, [];
    }

    method Record(source: string, service: string, now: int)
      requires Valid()
      modifies this, buf
      ensures Valid() && history == old(history) + [Entry(source, service, now)]
    {
      buf[next] := Entry(source, service, now);
      next := (next + 1) % buf.Length;
      size := if size + 1 < buf.Length then size + 1 else buf.Length;
      history := history + [Entry(source, service, now)];
      var n := |old(history)|;
      SlotAdvances(n);
      forall j | |history| - size <= j < |history| ensures buf[j % CAPACITY] == history[j] {
        if j < n {
          SlotsDiffer(j, n);
        }
      }
    }

    method Since(since: int, now: int) returns (kept: seq<Entry>)
      requires Valid()
      ensures kept == Answer(history, since, now)
    {
      var floor := if since > now - RETENTION then since else now - RETENTION;
      kept := [];
      ghost var held := Retained(history);
      for i := 0 to size
        invariant kept == Collect(held[..i], AtLeast(floor))
      {
        SlotOf(|history|, size, i);
        var e := buf[(next - size + i + buf.Length) % buf.Length];
        assert e == held[i];
        CollectStep(held, AtLeast(floor), i);
        if e.at >= floor {
          kept := kept + [e];
        }
      }
      assert held[..size] == held;
    }
  }

  lemma SlotAdvances(n: nat)
    ensures (n % CAPACITY + 1) % CAPACITY == (n + 1) % CAPACITY
  {}

  lemma SlotsDiffer(j: nat, n: nat)
    requires j < n < j + CAPACITY
    ensures j % CAPACITY != n % CAPACITY
  {}

  lemma SlotOf(n: nat, size: nat, i: nat)
    requires size <= n && size <= CAPACITY && i < size
    ensures (n % CAPACITY - size + i + CAPACITY) % CAPACITY == (n - size + i) % CAPACITY
  {}

  /** Of the last 4096 entries a read answers those no older than its cursor and than thirty seconds. */
  lemma AnswerMeans(h: seq<Entry>, since: int, now: int, e: Entry)
    ensures e in Answer(h, since, now) <==>
        exists j | 0 <= j < |h| :: h[j] == e && j + 4096 >= |h| && e.at >= since && e.at + 30000 >= now
  {
    var held, floor := Retained(h), Floor(since, now);
    CollectMembers(held, AtLeast(floor), e);
    if j :| 0 <= j < |h| && h[j] == e && j + 4096 >= |h| && e.at >= since && e.at + 30000 >= now {
      assert held[j - (|h| - Filled(|h|))] == e;
      assert e in AtLeast(floor)(e);
    }
  }

  // ---------------------------------------------------------------- a poller

  /** One poll: the history at that moment, the clock, the cursor sent and the answer. */
  datatype Poll = Poll(history: seq<Entry>, now: int, cursor: int, answer: seq<Entry>)

  /** Recording under the lock makes ring order time order. */
  ghost predicate Chronological(h: seq<Entry>) {
    forall i, j | 0 <= i <= j < |h| :: h[i].at <= h[j].at
  }

  /** The poller feeds the last timestamp it saw back in. */
  function NextCursor(p: Poll): int {
    if p.answer == [] then p.cursor else p.answer[|p.answer| - 1].at
  }

  ghost predicate Polling(polls: seq<Poll>) {
    && (forall k | 0 <= k < |polls| :: Chronological(polls[k].history)
          && polls[k].answer == Answer(polls[k].history, polls[k].cursor, polls[k].now))
    && (forall k | 0 < k < |polls| ::
          && polls[k - 1].history <= polls[k].history && polls[k - 1].now <= polls[k].now
          && polls[k].cursor == NextCursor(polls[k - 1]))
  }

  /** Entry `j` was no longer there to be read: overwritten, or aged out. */
  predicate Lost(p: Poll, j: nat)
    requires j < |p.history|
  {
    j < |p.history| - Filled(|p.history|) || p.history[j].at < p.now - RETENTION
  }

  lemma AnswerMember(h: seq<Entry>, since: int, now: int, e: Entry)
    ensures e in Answer(h, since, now) <==> e in Retained(h) && e.at >= Floor(since, now)
  {
    CollectMembers(Retained(h), AtLeast(Floor(since, now)), e);
  }

  /** The cursor never runs ahead of what had been recorded when it was read. */
  lemma {:induction false} CursorBehind(polls: seq<Poll>, k: nat, j: nat)
    requires Polling(polls) && k < |polls| && j < |polls[k].history|
    requires polls[0].cursor <= polls[k].history[j].at && (k > 0 ==> |polls[k - 1].history| <= j)
    ensures polls[k].cursor <= polls[k].history[j].at
  {
    hide Answer;
    if k > 0 {
      var q := polls[k - 1];
      if q.answer == [] {
        CursorUnmoved(polls, k - 1, polls[k].history[j].at);
      } else {
        LastAnswered(q);
      }
    }
  }

  /** Every cursor is the first one or the timestamp of an entry already recorded. */
  lemma {:induction false} CursorUnmoved(polls: seq<Poll>, k: nat, bound: int)
    requires Polling(polls) && k < |polls| && polls[0].cursor <= bound
    requires forall i | 0 <= i < |polls[k].history| :: polls[k].history[i].at <= bound
    ensures polls[k].cursor <= bound
  {
    hide Answer, Chronological;
    if k > 0 {
      var q := polls[k - 1];
      assert forall i | 0 <= i < |q.history| :: q.history[i] == polls[k].history[i];
      CursorUnmoved(polls, k - 1, bound);
      if q.answer != [] {
        LastAnswered(q);
      }
    }
  }

  /** A nonempty answer ends with the newest entry there is. */
  lemma LastAnswered(p: Poll)
    requires Chronological(p.history) && p.answer == Answer(p.history, p.cursor, p.now) && p.answer != []
    ensures p.history != [] && p.answer[|p.answer| - 1] == p.history[|p.history| - 1]
  {
    var h, f := Retained(p.history), AtLeast(Floor(p.cursor, p.now));
    var e := p.answer[0];
    AnswerMember(p.history, p.cursor, p.now, e);
    var i :| 0 <= i < |h| && h[i] == e;
    assert h[i] == p.history[|p.history| - |h| + i];
    assert f(h[|h| - 1]) == [h[|h| - 1]];
  }

  /** A poller misses an entry only if it was overwritten or aged out before the first poll after it. */
  lemma PollerMissesNothing(polls: seq<Poll>, k: nat, j: nat)
    requires Polling(polls) && k < |polls| && j < |polls[k].history|
    requires polls[0].cursor <= polls[k].history[j].at && (k > 0 ==> |polls[k - 1].history| <= j)
    requires !Lost(polls[k], j)
    ensures polls[k].history[j] in polls[k].answer
  {
    hide Answer, Lost;
    CursorBehind(polls, k, j);
    UnlostAnswered(polls[k], j);
  }

  /** An answered entry sits at an index that is not lost. */
  lemma AnsweredAt(p: Poll, e: Entry) returns (j: nat)
    requires p.answer == Answer(p.history, p.cursor, p.now) && e in p.answer
    ensures j < |p.history| && p.history[j] == e && !Lost(p, j) && e.at >= p.cursor
  {
    AnswerMember(p.history, p.cursor, p.now, e);
    var h := Retained(p.history);
    var i :| 0 <= i < |h| && h[i] == e;
    j := |p.history| - |h| + i;
  }

  /** Entries only get lost. */
  lemma LostForGood(q: Poll, p: Poll, j: nat)
    requires q.history <= p.history && q.now <= p.now && j < |q.history| && Lost(q, j)
    ensures Lost(p, j)
  {}

  lemma UnlostAnswered(p: Poll, j: nat)
    requires p.answer == Answer(p.history, p.cursor, p.now) && j < |p.history| && !Lost(p, j)
    requires p.history[j].at >= p.cursor
    ensures p.history[j] in p.answer
  {
    AnswerMember(p.history, p.cursor, p.now, p.history[j]);
    assert p.history[j] == Retained(p.history)[j - (|p.history| - Filled(|p.history|))];
  }

  /** What a poll reads again shares the cursor's millisecond. */
  lemma RereadsShareMillisecond(polls: seq<Poll>, k: nat, e: Entry)
    requires Polling(polls) && 0 < k < |polls| && e in polls[k].answer
    requires forall i | |polls[k - 1].history| <= i < |polls[k].history| :: polls[k].history[i] != e
    ensures e.at == polls[k].cursor
  {
    hide Answer, Lost;
    var p, q := polls[k], polls[k - 1];
    var j := AnsweredAt(p, e);
    assert q.history[j] == e;
    if q.answer == [] {
      if Lost(q, j) {
        LostForGood(q, p, j);
      } else {
        UnlostAnswered(q, j);
      }
      assert false;
    } else {
      LastAnswered(q);
    }
  }
}
