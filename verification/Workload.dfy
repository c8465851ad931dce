/** The workload controller: the methods that carry out one rollout pass on the store. */
module Workload {
  import opened Store
  import opened Instances
  import opened Order
  import opened Rollout

  const CAS_RETRIES := 5

  /** The listed instances of one role, in listing order. */
  function Select(ls: seq<Listed>, tg: Target, role: Role): (r: seq<Listed>)
    ensures forall l :: l in r <==> l in ls && RoleOf(l.value, tg) == role
  {
    if ls == [] then [] else
      var k := |ls| - 1;
      assert ls == ls[..k] + [ls[k]];
      Select(ls[..k], tg, role) + if RoleOf(ls[k].value, tg) == role then [ls[k]] else []
  }

  lemma {:induction false} SelectDistinct(ls: seq<Listed>, tg: Target, role: Role)
    requires Distinct(ls)
    ensures Distinct(Select(ls, tg, role)) && Names(Select(ls, tg, role)) <= Names(ls)
  {
    if ls != [] {
      var k := |ls| - 1;
      var front, l := ls[..k], ls[k];
      assert ls == front + [l];
      DistinctPrefix(ls, k);
      SelectDistinct(front, tg, role);
      DistinctAppend(front, l);
      var r := Select(front, tg, role);
      if RoleOf(l.value, tg) == role {
        DistinctAppend(r, l);
      } else {
        assert Select(ls, tg, role) == r;
      }
    }
  }

  /** A group of a faithful listing names exactly the stored instances of its role, once each. */
  lemma GroupNames(ls: seq<Listed>, objs: Objs, tg: Target, role: Role)
    requires Lists(ls, objs)
    ensures Names(Select(ls, tg, role)) == InRole(objs, tg, role)
    ensures Distinct(Select(ls, tg, role)) && |Select(ls, tg, role)| == |InRole(objs, tg, role)|
  {
    SelectDistinct(ls, tg, role);
    forall n | n in InRole(objs, tg, role) ensures n in Names(Select(ls, tg, role)) {
      assert n in Names(ls);
      var l :| l in ls && l.value.name == n;
      assert l in Select(ls, tg, role);
    }
  }

  lemma SelectSnoc(ls: seq<Listed>, k: nat, tg: Target)
    requires k < |ls|
    ensures forall role: Role :: Select(ls[..k + 1], tg, role)
              == Select(ls[..k], tg, role) + if RoleOf(ls[k].value, tg) == role then [ls[k]] else []
  {
    assert ls[..k + 1][..k] == ls[..k];
  }

  lemma SelectNone(tg: Target)
    ensures forall role: Role :: Select([], tg, role) == []
  {}

  function NewestFirst(ls: seq<Listed>): (r: seq<Listed>)
    ensures multiset(r) == multiset(ls) && Sorted(r, Newer)
  {
    NewerStrict();
    SortSorted(ls, Newer);
    Sort(ls, Newer)
  }

  /** Splits a listing by role, the two serving groups newest first. */
  method Classify(tg: Target, listed: seq<Listed>) returns (g: Groups)
    ensures g.doomed == Select(listed, tg, Doomed) && g.draining == Select(listed, tg, OnDrain)
    ensures multiset(g.current) == multiset(Select(listed, tg, Fresh)) && Sorted(g.current, Newer)
    ensures multiset(g.retiring) == multiset(Select(listed, tg, Retiring)) && Sorted(g.retiring, Newer)
    ensures forall l :: l in g.current <==>
              l in listed && l.value.phase != Draining && l.value.hash == tg.hash && l.value.node !in tg.drainingNodes
    ensures forall l :: l in g.retiring <==>
              l in listed && l.value.phase == Ready && (l.value.hash != tg.hash || l.value.node in tg.drainingNodes)
    ensures forall l :: l in g.doomed <==>
              l in listed && l.value.phase != Ready && l.value.phase != Draining
              && (l.value.hash != tg.hash || l.value.node in tg.drainingNodes)
    ensures forall l :: l in g.draining <==> l in listed && l.value.phase == Draining
  {
    hide Select, RoleOf, Newer;
    g := Groups([], [], [], []);
    SelectNone(tg);
    for k := 0 to |listed|
      invariant g == Groups(Select(listed[..k], tg, Fresh), Select(listed[..k], tg, Retiring),
                            Select(listed[..k], tg, Doomed), Select(listed[..k], tg, OnDrain))
    {
      var l := listed[k];
      SelectSnoc(listed, k, tg);
      match RoleOf(l.value, tg) {
        case OnDrain => g := g.(draining := g.draining + [l]);
        case Fresh => g := g.(current := g.current + [l]);
        case Retiring => g := g.(retiring := g.retiring + [l]);
        case Doomed => g := g.(doomed := g.doomed + [l]);
      }
    }
    assert listed[..|listed|] == listed;
    g := g.(current := NewestFirst(g.current), retiring := NewestFirst(g.retiring));
    SelectedFields(tg, listed, g);
  }

  lemma {:induction false} SelectMember(ls: seq<Listed>, tg: Target, role: Role, l: Listed)
    ensures l in Select(ls, tg, role) <==> l in ls && RoleOf(l.value, tg) == role
  {
    if ls != [] {
      var k := |ls| - 1;
      assert ls[..k + 1] == ls == ls[..k] + [ls[k]];
      SelectMember(ls[..k], tg, role, l);
      SelectSnoc(ls, k, tg);
    }
  }

  lemma SelectedFields(tg: Target, listed: seq<Listed>, g: Groups)
    requires g.doomed == Select(listed, tg, Doomed) && g.draining == Select(listed, tg, OnDrain)
    requires multiset(g.current) == multiset(Select(listed, tg, Fresh))
    requires multiset(g.retiring) == multiset(Select(listed, tg, Retiring))
    ensures forall l :: l in g.current <==>
              l in listed && l.value.phase != Draining && l.value.hash == tg.hash && l.value.node !in tg.drainingNodes
    ensures forall l :: l in g.retiring <==>
              l in listed && l.value.phase == Ready && (l.value.hash != tg.hash || l.value.node in tg.drainingNodes)
    ensures forall l :: l in g.doomed <==>
              l in listed && l.value.phase != Ready && l.value.phase != Draining
              && (l.value.hash != tg.hash || l.value.node in tg.drainingNodes)
    ensures forall l :: l in g.draining <==> l in listed && l.value.phase == Draining
  {
    hide Select;
    forall l, role
      ensures l in Select(listed, tg, role) <==> l in listed && RoleOf(l.value, tg) == role
      ensures l in g.current <==> l in Select(listed, tg, Fresh)
      ensures l in g.retiring <==> l in Select(listed, tg, Retiring)
    {
      SelectMember(listed, tg, role, l);
      assert l in g.current <==> l in multiset(g.current);
      assert l in Select(listed, tg, Fresh) <==> l in multiset(Select(listed, tg, Fresh));
      assert l in g.retiring <==> l in multiset(g.retiring);
      assert l in Select(listed, tg, Retiring) <==> l in multiset(Select(listed, tg, Retiring));
    }
  }

  function Except(objs: Objs, todo: set<string>): Objs {
    objs - todo
  }

  lemma ListsOneMore(listed: seq<Listed>, objs: Objs, todo: set<string>, n: string)
    requires Named(objs) && n in todo && todo <= objs.Keys && Lists(listed, Except(objs, todo))
    ensures Lists(listed + [objs[n]], Except(objs, todo - {n}))
  {
    var more, rest := listed + [objs[n]], Except(objs, todo - {n});
    assert n !in Except(objs, todo);
    DistinctAppend(listed, objs[n]);
    forall l | l in more ensures l.value.name in rest && rest[l.value.name] == l {
      assert l == objs[n] || (l in listed && l.value.name in Except(objs, todo));
    }
    assert rest.Keys == Except(objs, todo).Keys + {n};
  }

  predicate Expired(deadlines: map<nat, int>, now: int, i: Instance) {
    i.uid in deadlines && now >= deadlines[i.uid]
  }

  // ---------------------------------------------------------------- random names

  /** The source of random suffixes, by draw. */
  type Dice = nat -> string

  function Candidate(workload: string, draw: Dice, d: nat): string {
    workload + "-" + draw(d)
  }

  /** The workload's name, a dash and the suffix drawn. */
  lemma CandidateMeans(workload: string, draw: Dice, d: nat)
    ensures var name, n := Candidate(workload, draw, d), |workload|;
            |name| > n && name[..n] == workload && name[n] == '-' && name[n + 1..] == draw(d)
  {}

  /** The first draw from `d` on, within `tries`, whose name is not taken. */
  function Roll(taken: set<string>, workload: string, draw: Dice, d: nat, tries: nat): Option<nat>
    decreases tries
  {
    if tries == 0 then None
    else if Candidate(workload, draw, d) !in taken then Some(d)
    else Roll(taken, workload, draw, d + 1, tries - 1)
  }

  /** It fails exactly when every one of them is. */
  lemma {:induction false} RollMeans(taken: set<string>, workload: string, draw: Dice, d: nat, tries: nat)
    ensures var r := Roll(taken, workload, draw, d, tries);
            && (r.None? <==> forall i: nat | d <= i < d + tries :: Candidate(workload, draw, i) in taken)
            && (r.Some? ==> d <= r.value < d + tries && Candidate(workload, draw, r.value) !in taken)
            && (r.Some? ==> forall i: nat | d <= i < r.value :: Candidate(workload, draw, i) in taken)
    decreases tries
  {
    if tries > 0 {
      RollMeans(taken, workload, draw, d + 1, tries - 1);
    }
  }

  /** A draw that hits after misses is the one the roll finds. */
  lemma {:induction false} RollHits(taken: set<string>, workload: string, draw: Dice, d: nat, tries: nat, hit: nat)
    requires d <= hit < d + tries && Candidate(workload, draw, hit) !in taken
    requires forall i: nat | d <= i < hit :: Candidate(workload, draw, i) in taken
    ensures Roll(taken, workload, draw, d, tries) == Some(hit)
    decreases tries
  {
    if d < hit {
      RollHits(taken, workload, draw, d + 1, tries - 1, hit);
    }
  }

  /** The names `count` creates in a row come up with; one that runs out of tries leaves the later ones theirs. */
  ghost function Births(taken: set<string>, workload: string, draw: Dice, d: nat, count: nat): set<string>
    decreases count
  {
    if count == 0 then {} else
      var r := Roll(taken, workload, draw, d, CAS_RETRIES);
      if r.None? then Births(taken, workload, draw, d + CAS_RETRIES, count - 1)
      else
        var name := Candidate(workload, draw, r.value);
        {name} + Births(taken + {name}, workload, draw, r.value + 1, count - 1)
  }

  class Controller {
    var db: Db<string, Instance>
    // the moment each draining instance may be deleted, by uid; a new leader starts without any
    var deadlines: map<nat, int>
    var lastUid: nat
    const draw: Dice
    var drawn: nat

    ghost predicate Valid()
      reads this`db
    {
      WellFormed(db) && Named(db.objs)
    }

    constructor (db: Db<string, Instance>, draw: Dice)
      requires WellFormed(db) && Named(db.objs)
      ensures Valid() && this.db == db && this.draw == draw && deadlines == map[] && lastUid == 0 && drawn == 0
    {
      this.db, this.draw, deadlines, lastUid, drawn := db, draw, map[], 0, 0;
    }

    method List() returns (listed: seq<Listed>)
      requires Valid()
      ensures Lists(listed, db.objs)
    {
      listed := [];
      var todo := db.objs.Keys;
      while todo != {}
        invariant todo <= db.objs.Keys && Lists(listed, Except(db.objs, todo))
        decreases |todo|
      {
        var n :| n in todo;
        ListsOneMore(listed, db.objs, todo, n);
        listed, todo := listed + [db.objs[n]], todo - {n};
      }
      assert Except(db.objs, {}) == db.objs;
    }

    /** Deletes exactly the listed version; one that moved or went since is left to the next pass. */
    method DeleteInstance(l: Listed)
      requires Valid()
      modifies this`db
      ensures Valid()
      ensures db.objs == if Current(old(db.objs), l) then old(db.objs) - {l.value.name} else old(db.objs)
    {
      if Current(db.objs, l) {
        db := Deleted(db, l.value.name);
      }
    }

    /** Takes one instance out of service: READY goes DRAINING with a deadline, anything else is deleted. */
    method Retire(l: Listed, reason: string, now: int)
      requires Valid()
      modifies this`db, this`deadlines
      ensures Valid()
      ensures !Current(old(db.objs), l) ==> db.objs == old(db.objs) && deadlines == old(deadlines)
      ensures Current(old(db.objs), l) && l.value.phase != Ready ==>
                db.objs == old(db.objs) - {l.value.name} && deadlines == old(deadlines)
      ensures Current(old(db.objs), l) && l.value.phase == Ready ==>
                && db.objs == old(db.objs)[l.value.name := Version(l.value.(phase := Draining, message := reason),
                                                                   db.rev)]
                && var end := now + if l.value.drainSeconds > 0 then l.value.drainSeconds else 30;
                deadlines == old(deadlines)[l.value.uid := end]
    {
      if l.value.phase != Ready {
        DeleteInstance(l);
      } else if Current(db.objs, l) {
        db := Written(db, l.value.name, l.value.(phase := Draining, message := reason));
        deadlines := deadlines[l.value.uid := now + DrainTimeout(l.value)];
      }
    }

    /** Ends the drains that ran out; one this leader knows no deadline for gets a fresh one. */
    method ExpireDrains(draining: seq<Listed>, now: int)
      requires Valid()
      modifies this`db, this`deadlines
      ensures Valid()
      ensures db.objs == old(db.objs)
                - set l | l in draining && Current(old(db.objs), l) && Expired(old(deadlines), now, l.value) ::
                    l.value.name
      ensures forall u | u in old(deadlines) :: u in deadlines && deadlines[u] == old(deadlines)[u]
      ensures forall l | l in draining :: l.value.uid in deadlines
      ensures forall u | u in deadlines && u !in old(deadlines) ::
                exists l | l in draining :: l.value.uid == u
                  && deadlines[u] == now + if l.value.drainSeconds > 0 then l.value.drainSeconds else 30
    {
      ghost var gone: set<string> := {};
      for k := 0 to |draining|
        invariant Valid()
        invariant gone == set l | l in draining[..k] && Current(old(db.objs), l)
                                  && Expired(old(deadlines), now, l.value) :: l.value.name
        invariant db.objs == old(db.objs) - gone
        invariant forall u | u in old(deadlines) :: u in deadlines && deadlines[u] == old(deadlines)[u]
        invariant forall l | l in draining[..k] :: l.value.uid in deadlines
        invariant forall u | u in deadlines && u !in old(deadlines) ::
                    exists l | l in draining[..k] :: l.value.uid == u && deadlines[u] == now + DrainTimeout(l.value)
      {
        var l := draining[k];
        assert draining[..k + 1] == draining[..k] + [l];
        assert l in draining[..k + 1] && forall x | x in draining[..k] :: x in draining[..k + 1];
        if l.value.uid !in deadlines {
          deadlines := deadlines[l.value.uid := now + DrainTimeout(l.value)];
        } else if now >= deadlines[l.value.uid] {
          DeleteInstance(l);
          if Current(old(db.objs), l) {
            gone := gone + {l.value.name};
          }
        }
      }
      assert draining[..|draining|] == draining;
    }

    /** Creates one pending instance under a random name; a taken name rolls again, five times at most. */
    method CreateInstance(tg: Target, now: int) returns (ok: bool, ghost name: string)
      requires Valid()
      modifies this`db, this`lastUid, this`drawn
      ensures Valid()
      ensures var r := Roll(old(db.objs).Keys, tg.workload, draw, old(drawn), CAS_RETRIES);
              && (ok <==> r.Some?)
              && (ok ==> name == Candidate(tg.workload, draw, r.value) && drawn == r.value + 1)
      ensures !ok ==> db.objs == old(db.objs) && drawn == old(drawn) + CAS_RETRIES
      ensures ok ==> name !in old(db.objs) && db.objs.Keys == old(db.objs).Keys + {name}
      ensures ok ==> db.objs == old(db.objs)[name := db.objs[name]]
      ensures ok ==> db.objs[name].value.name == name && Newborn(tg, db.objs[name].value)
      ensures ok ==> var i := db.objs[name].value;
                     i.uid == lastUid == old(lastUid) + 1 && i.created == now && i.message == ""
      ensures !ok <==>
          forall i: nat | old(drawn) <= i < old(drawn) + 5 :: Candidate(tg.workload, draw, i) in old(db.objs)
    {
      RollMeans(db.objs.Keys, tg.workload, draw, drawn, CAS_RETRIES);
      hide Roll, Candidate;
      name := "";
      for k := 0 to CAS_RETRIES
        invariant Valid() && db == old(db) && drawn == old(drawn) + k && lastUid == old(lastUid)
        invariant forall i: nat | old(drawn) <= i < drawn :: Candidate(tg.workload, draw, i) in db.objs
      {
        var candidate := Candidate(tg.workload, draw, drawn);
        drawn := drawn + 1;
        if candidate !in db.objs {
          lastUid := lastUid + 1;
          var inst := Instance(candidate, lastUid, now, tg.workload, tg.hash, "", Pending, "", tg.drainSeconds);
          RollHits(old(db.objs).Keys, tg.workload, draw, old(drawn), CAS_RETRIES, drawn - 1);
          db := Written(db, candidate, inst);
          return true, candidate;
        }
      }
      return false, name;
    }

    /** One of `due` creates still to make. */
    method CreateOne(tg: Target, now: int, ghost objs: Objs, ghost gone: set<string>, ghost born: set<string>,
                     ghost due: nat)
      returns (ok: bool, ghost born': set<string>)
      requires Valid() && Carried(tg, objs, gone, {}, born, db.objs) && due > 0
      modifies this`db, this`lastUid, this`drawn
      ensures Valid() && Carried(tg, objs, gone, {}, born', db.objs) && |born'| == |born| + if ok then 1 else 0
      ensures born' + Births(db.objs.Keys, tg.workload, draw, drawn, due - 1)
           == born + Births(old(db.objs).Keys, tg.workload, draw, old(drawn), due)
    {
      hide *;
      ghost var mid, d := db.objs, drawn;
      ghost var name;
      ok, name := CreateInstance(tg, now);
      RollOn(mid.Keys, tg.workload, draw, d, due, ok, name, db.objs.Keys, drawn, born);
      born' := born;
      if ok {
        BirthCarried(tg, objs, gone, born, mid, name, db.objs);
        born' := born + {name};
      }
    }

    /** Creates `count` instances on top of whatever the pass did so far; each failure leaves one out. */
    method CreateInstances(tg: Target, count: nat, now: int, ghost objs: Objs, ghost gone: set<string>)
      returns (ok: bool, ghost born: set<string>)
      requires Valid() && Carried(tg, objs, gone, {}, {}, db.objs)
      modifies this`db, this`lastUid, this`drawn
      ensures Valid() && Carried(tg, objs, gone, {}, born, db.objs)
      ensures born == Births(old(db.objs).Keys, tg.workload, draw, old(drawn), count)
      ensures |born| <= count && (ok <==> |born| == count)
    {
      hide *;
      ok, born := true, {};
      for k := 0 to count
        invariant Valid() && Carried(tg, objs, gone, {}, born, db.objs)
        invariant |born| <= k && (ok <==> |born| == k)
        invariant born + Births(db.objs.Keys, tg.workload, draw, drawn, count - k)
               == Births(old(db.objs).Keys, tg.workload, draw, old(drawn), count)
      {
        var fine;
        fine, born := CreateOne(tg, now, objs, gone, born, count - k);
        ok := ok && fine;
      }
      NoBirths(db.objs.Keys, tg.workload, draw, drawn);
    }

    method DeleteAll(ls: seq<Listed>)
      requires Valid() && forall l | l in ls :: Current(db.objs, l)
      modifies this`db
      ensures Valid() && db.objs == old(db.objs) - Names(ls)
    {
      ghost var done: set<string> := {};
      for k := 0 to |ls|
        invariant Valid() && done == Names(ls[..k]) && db.objs == old(db.objs) - done
      {
        assert Names(ls[..k + 1]) == done + {ls[k].value.name} by {
          assert ls[..k + 1] == ls[..k] + [ls[k]];
          DistinctAppend(ls[..k], ls[k]);
        }
        assert Current(old(db.objs), ls[k]);
        DeleteInstance(ls[k]);
        done := done + {ls[k].value.name};
        assert db.objs == old(db.objs) - done;
      }
      assert ls[..|ls|] == ls;
    }

    /** Deletes the doomed and expires the drains of the pass. */
    method ClearUnserving(tg: Target, doomed: seq<Listed>, draining: seq<Listed>, now: int, ghost objs: Objs)
      requires Valid() && db.objs == objs && Names(doomed) !! Names(draining)
      requires (forall l | l in doomed :: Current(objs, l)) && (forall l | l in draining :: Current(objs, l))
      requires forall l | l in draining :: l.value.name in objs && objs[l.value.name] == l
      modifies this`db, this`deadlines
      ensures Valid()
      ensures Carried(tg, objs, Names(doomed) + ExpiredNames(draining, old(deadlines), now), {}, {}, db.objs)
      ensures forall l | l in draining :: l.value.uid in deadlines
      ensures Timed(objs, now, old(deadlines), deadlines, {})
    {
      DeleteAll(doomed);
      ghost var mid := db.objs;
      ExpireDrains(draining, now);
      assert forall l | l in draining :: l.value.name in Names(draining) && Current(mid, l);
      ghost var expired := ExpiredNames(draining, old(deadlines), now);
      assert expired == set l | l in draining && Current(mid, l) && Expired(old(deadlines), now, l.value) ::
          l.value.name;
      RemovedSoFar(tg, objs, Names(doomed), expired, db.objs);
    }

    method RetireOne(tg: Target, l: Listed, reason: string, now: int, ghost objs: Objs, ghost gone: set<string>,
                     ghost done: set<string>)
      requires Valid() && Carried(tg, objs, gone, done, {}, db.objs)
      requires l.value.name in objs && objs[l.value.name] == l && l.value.name !in done && l.value.name !in gone
      modifies this`db, this`deadlines
      ensures Valid() && Carried(tg, objs, gone, done + {l.value.name}, {}, db.objs)
      ensures Timed(objs, now, old(deadlines), deadlines, {l.value.name})
      ensures Told(objs, {l.value.name}, db.objs, reason)
      ensures forall m | m in old(db.objs) && m != l.value.name :: m in db.objs && db.objs[m] == old(db.objs)[m]
    {
      ghost var mid := db.objs;
      StillPinned(tg, objs, gone, done, mid, l);
      Retire(l, reason, now);
      RetireEffect(tg, objs, gone, done, mid, l, db.objs);
    }

    /** Retires `vs`, all current, on top of removals `gone`. */
    method RetireAll(tg: Target, vs: seq<Listed>, reason: string, now: int, ghost objs: Objs, ghost gone: set<string>)
      requires Valid() && Carried(tg, objs, gone, {}, {}, db.objs) && Distinct(vs) && Names(vs) !! gone
      requires forall l | l in vs :: l.value.name in objs && objs[l.value.name] == l
      modifies this`db, this`deadlines
      ensures Valid() && Carried(tg, objs, gone, Names(vs), {}, db.objs)
      ensures Timed(objs, now, old(deadlines), deadlines, Names(vs)) && Told(objs, Names(vs), db.objs, reason)
    {
      assert Names(vs[..0]) == {};
      hide *;
      ghost var done: set<string> := {};
      TimedNone(objs, now, deadlines);
      ToldNone(objs, db.objs, reason);
      for k := 0 to |vs|
        invariant Valid() && Carried(tg, objs, gone, done, {}, db.objs)
        invariant Timed(objs, now, old(deadlines), deadlines, done) && Told(objs, done, db.objs, reason)
        invariant done == Names(vs[..k])
      {
        var l := vs[k];
        assert l.value.name !in done && l.value.name !in gone && Names(vs[..k + 1]) == done + {l.value.name} by {
          NextName(vs, k);
        }
        ghost var mid, held := deadlines, db.objs;
        RetireOne(tg, l, reason, now, objs, gone, done);
        ToldMore(objs, done, l.value.name, held, db.objs, reason);
        TimedJoin(objs, now, old(deadlines), mid, done, deadlines, {l.value.name});
        done := done + {l.value.name};
      }
      assert vs[..|vs|] == vs;
    }

    /** Carries the rollout action out; `first` is the newest retiring instance. */
    method RollStep(tg: Target, action: RollAction, first: Listed, now: int, ghost objs: Objs, ghost gone: set<string>)
      returns (ok: bool, ghost victims: set<string>, ghost born: set<string>)
      requires Valid() && Carried(tg, objs, gone, {}, {}, db.objs)
      requires first.value.name in objs && objs[first.value.name] == first && first.value.name !in gone
      modifies this
      ensures Valid()
      ensures victims == if action.Drain? then {first.value.name} else {}
      ensures born == Births(old(db.objs).Keys, tg.workload, draw, old(drawn), if action.Surge? then 1 else 0)
      ensures |born| == if action.Surge? && ok then 1 else 0
      ensures ok <==> |born| == if action.Surge? then 1 else 0
      ensures Carried(tg, objs, gone, victims, born, db.objs)
      ensures Timed(objs, now, old(deadlines), deadlines, victims)
      ensures Told(objs, victims, db.objs, if action.Drain? then action.reason else "")
    {
      hide *;
      TimedNone(objs, now, deadlines);
      NoBirths(db.objs.Keys, tg.workload, draw, drawn);
      ok, victims, born := true, {}, {};
      match action {
        case Wait =>
          ToldNone(objs, db.objs, "");
        case Surge =>
          ok, born := CreateInstances(tg, 1, now, objs, gone);
          ToldNone(objs, db.objs, "");
        case Drain(reason) =>
          RetireOne(tg, first, reason, now, objs, gone, {});
          victims := {} + {first.value.name};
          assert victims == {first.value.name};
      }
    }

    /**
     One pass over the workload's instances: list, forget deadlines of vanished
     instances, and advance. Unless a create runs out of names it is the
     choreography; if one does, exactly its birth is missing.
     */
    method Reconcile(tg: Target, now: int)
      returns (ok: bool, ghost expired: set<string>, ghost victims: set<string>, ghost born: set<string>)
      requires Valid()
      modifies this
      ensures Valid()
      ensures expired == ExpiredIn(tg, old(db.objs), old(deadlines), now)
      ensures born == Births(old(db.objs).Keys - InRole(old(db.objs), tg, Doomed) - expired, tg.workload, draw,
                             old(drawn), BirthsDue(tg, old(db.objs)))
      ensures ok <==> |born| == BirthsDue(tg, old(db.objs))
      ensures ok ==> Pass(tg, old(db.objs), expired, victims, born, db.objs)
      ensures !ok ==> victims == {}
                      && Effect(tg, old(db.objs), InRole(old(db.objs), tg, Doomed) + expired, {}, born, db.objs)
      ensures DeadlinesKept(old(db.objs), now, old(deadlines), deadlines, victims)
      ensures Told(old(db.objs), victims, db.objs, DrainReason(tg, old(db.objs)))
    {
      hide *;
      ghost var objs := db.objs;
      var listed := List();
      deadlines := Forget(deadlines, listed);
      var g := Classify(tg, listed);
      expired := ExpiredNames(g.draining, deadlines, now);
      ghost var gone := Names(g.doomed) + expired;
      GroupsListed(tg, listed, objs, g, old(deadlines), now);
      ghost var known := deadlines;
      ClearUnserving(tg, g.doomed, g.draining, now, objs);
      ghost var mid := deadlines;
      CarriedKeys(tg, objs, InRole(objs, tg, Doomed), expired, db.objs);
      ok, victims, born := Advance(tg, g, now, objs, gone);
      TimedJoin(objs, now, known, mid, {}, deadlines, victims);
      KeptDeadlines(tg, objs, now, listed, g.draining, old(deadlines), mid, deadlines, victims);
      Concluded(tg, objs, expired, victims, born, db.objs, ok);
    }

    /** Scale down, or restore base capacity, or take one rollout action. */
    method Advance(tg: Target, g: Groups, now: int, ghost objs: Objs, ghost gone: set<string>)
      returns (ok: bool, ghost victims: set<string>, ghost born: set<string>)
      requires Valid() && Carried(tg, objs, gone, {}, {}, db.objs) && Classified(tg, g, objs, gone)
      modifies this
      ensures Valid()
      ensures born == Births(old(db.objs).Keys, tg.workload, draw, old(drawn), BirthsDue(tg, objs))
      ensures ok <==> |born| == BirthsDue(tg, objs)
      ensures ok ==> Choreography(tg, objs, victims, born)
      ensures !ok ==> victims == {}
      ensures Carried(tg, objs, gone, victims, born, db.objs)
      ensures Timed(objs, now, old(deadlines), deadlines, victims)
      ensures Told(objs, victims, db.objs, DrainReason(tg, objs))
    {
      hide *;
      ok, victims, born := true, {}, {};
      TimedNone(objs, now, deadlines);
      GroupSizesOf(tg, g, objs, gone);
      NoBirths(db.objs.Keys, tg.workload, draw, drawn);
      if |g.current| > tg.replicas {
        var surplus := |g.current| - tg.replicas;
        Surplus(tg, g, objs, gone);
        victims := Names(g.current[..surplus]);
        RetireAll(tg, g.current[..surplus], "scale-down", now, objs, gone);
        ReasonOf(tg, objs);
      } else if |g.current| + |g.retiring| < tg.replicas {
        ok, born := CreateInstances(tg, tg.replicas - |g.current| - |g.retiring|, now, objs, gone);
        Refill(tg, objs, born, ok);
        ToldNone(objs, db.objs, DrainReason(tg, objs));
      } else if g.retiring == [] || g.draining != [] {
        Idle(tg, objs);
        ToldNone(objs, db.objs, DrainReason(tg, objs));
      } else {
        var action := NextAction(tg, g, objs);
        FirstRetiring(tg, g, objs, gone);
        ok, victims, born := RollStep(tg, action, g.retiring[0], now, objs, gone);
        RollChoice(tg, objs, action, g.retiring[0].value.name, victims, born, ok);
        ReasonOf(tg, objs);
        if !action.Drain? {
          ToldNone(objs, db.objs, DrainReason(tg, objs));
        }
      }
    }
  }

  // ---------------------------------------------------------------- reasons

  /** The READY victims say why they drain. */
  ghost predicate Told(objs: Objs, victims: set<string>, after: Objs, reason: string) {
    forall n | n in victims && n in objs && objs[n].value.phase == Ready ::
      n in after && after[n].value.message == reason
  }

  ghost function DrainReason(tg: Target, objs: Objs): string {
    if ScaleDown(tg, objs) then "scale-down"
    else if Covered(tg, objs) then "rollout"
    else "drain-first fallback: no capacity to surge"
  }

  lemma ReasonOf(tg: Target, objs: Objs)
    ensures |InRole(objs, tg, Fresh)| > tg.replicas ==> DrainReason(tg, objs) == "scale-down"
    ensures |InRole(objs, tg, Fresh)| <= tg.replicas ==>
        DrainReason(tg, objs) == if Covered(tg, objs) then "rollout" else "drain-first fallback: no capacity to surge"
  {}

  lemma ToldNone(objs: Objs, after: Objs, reason: string)
    ensures Told(objs, {}, after, reason)
  {}

  lemma ToldMore(objs: Objs, done: set<string>, n: string, mid: Objs, after: Objs, reason: string)
    requires Told(objs, done, mid, reason) && Told(objs, {n}, after, reason)
    requires forall m | m in mid && m != n :: m in after && after[m] == mid[m]
    ensures Told(objs, done + {n}, after, reason)
  {}

  // ---------------------------------------------------------------- deadlines

  /** What a pass does to the deadlines it starts with: draining instances and READY victims get theirs. */
  ghost predicate Timed(objs: Objs, now: int, before: map<nat, int>, after: map<nat, int>, victims: set<string>) {
    && (forall u | u in after ::
          (u in before && after[u] == before[u]) || exists n | n in objs :: TimesOut(objs[n].value, u, now, after[u]))
    && (forall u | u in before :: u in after && (after[u] == before[u] || exists n | n in victims && n in objs ::
          objs[n].value.uid == u && objs[n].value.phase == Ready))
    && (forall n | n in victims && n in objs && objs[n].value.phase == Ready :: objs[n].value.uid in after)
  }

  /** `end` is when a drain of the instance that begins now is over. */
  ghost predicate TimesOut(i: Instance, u: nat, now: int, end: int) {
    i.uid == u && end == now + if i.drainSeconds > 0 then i.drainSeconds else 30
  }

  /**
   The deadlines a pass leaves behind. Each is of an instance it listed, and
   is either the one known before or a whole timeout from now; everything
   draining has one, and a known one moves only when its instance is drained anew.
   */
  ghost predicate DeadlinesKept(objs: Objs, now: int, before: map<nat, int>, after: map<nat, int>,
                                victims: set<string>) {
    && DeadlinesListed(objs, now, before, after)
    && (forall n | n in objs && (objs[n].value.phase == Draining || (n in victims && objs[n].value.phase == Ready)) ::
          objs[n].value.uid in after)
    && (forall n | n in objs && objs[n].value.uid in before :: DeadlineStays(objs, n, before, after, victims))
  }

  ghost predicate DeadlinesListed(objs: Objs, now: int, before: map<nat, int>, after: map<nat, int>) {
    forall u | u in after ::
      && (exists n | n in objs :: objs[n].value.uid == u)
      && ((u in before && after[u] == before[u]) || exists n | n in objs :: TimesOut(objs[n].value, u, now, after[u]))
  }

  ghost predicate DeadlineStays(objs: Objs, n: string, before: map<nat, int>, after: map<nat, int>,
                                victims: set<string>)
    requires n in objs && objs[n].value.uid in before
  {
    var u := objs[n].value.uid;
    u in after && (after[u] == before[u] || exists v | v in victims && v in objs ::
      objs[v].value.uid == u && objs[v].value.phase == Ready)
  }

  lemma TimedNone(objs: Objs, now: int, deadlines: map<nat, int>)
    ensures Timed(objs, now, deadlines, deadlines, {})
  {}

  lemma TimedJoin(objs: Objs, now: int, a: map<nat, int>, b: map<nat, int>, v: set<string>, c: map<nat, int>,
                  w: set<string>)
    requires Timed(objs, now, a, b, v) && Timed(objs, now, b, c, w)
    ensures Timed(objs, now, a, c, v + w) && (v == {} ==> Timed(objs, now, a, c, w))
  {
    hide TimesOut;
    assert v == {} ==> v + w == w;
  }

  lemma ListedUids(listed: seq<Listed>, objs: Objs)
    requires Lists(listed, objs)
    ensures forall n | n in objs :: objs[n].value.uid in Uids(listed)
    ensures forall u | u in Uids(listed) :: exists n | n in objs :: objs[n].value.uid == u
  {
    hide Distinct;
    forall n | n in objs ensures objs[n].value.uid in Uids(listed) {
      assert n in Names(listed);
      var l :| l in listed && l.value.name == n;
    }
    forall u | u in Uids(listed) ensures exists n | n in objs :: objs[n].value.uid == u {
      var l :| l in listed && l.value.uid == u;
      assert l.value.name in objs;
    }
  }

  lemma DrainingTimed(tg: Target, objs: Objs, draining: seq<Listed>, deadlines: map<nat, int>)
    requires Group(tg, draining, objs, OnDrain) && forall l | l in draining :: l.value.uid in deadlines
    ensures forall n | n in objs && objs[n].value.phase == Draining :: objs[n].value.uid in deadlines
  {
    hide Distinct;
    forall n | n in objs && objs[n].value.phase == Draining ensures objs[n].value.uid in deadlines {
      assert n in Names(draining);
      var l :| l in draining && l.value.name == n;
    }
  }

  lemma KeptDeadlines(tg: Target, objs: Objs, now: int, listed: seq<Listed>, draining: seq<Listed>,
                      before: map<nat, int>, mid: map<nat, int>, after: map<nat, int>, victims: set<string>)
    requires Lists(listed, objs) && Group(tg, draining, objs, OnDrain) && forall l | l in draining :: l.value.uid in mid
    requires Timed(objs, now, Forget(before, listed), after, victims) && Timed(objs, now, mid, after, victims)
    ensures DeadlinesKept(objs, now, before, after, victims)
  {
    DrainingTimed(tg, objs, draining, mid);
    assert forall u | u in mid :: u in after;
    ForgetListed(objs, now, listed, before, after, victims);
    hide Lists, Group, Forget, DeadlinesListed, DeadlineStays, TimesOut;
  }

  lemma ForgetListed(objs: Objs, now: int, listed: seq<Listed>, before: map<nat, int>, after: map<nat, int>,
                     victims: set<string>)
    requires Lists(listed, objs) && Timed(objs, now, Forget(before, listed), after, victims)
    ensures DeadlinesListed(objs, now, before, after)
    ensures forall n | n in objs && objs[n].value.uid in before :: DeadlineStays(objs, n, before, after, victims)
  {
    ListedUids(listed, objs);
    hide Lists, Uids;
    forall n | n in objs && objs[n].value.uid in before ensures DeadlineStays(objs, n, before, after, victims) {
      assert objs[n].value.uid in Forget(before, listed);
    }
    forall u | u in after
      ensures exists n | n in objs :: objs[n].value.uid == u
      ensures (u in before && after[u] == before[u])
              || exists n | n in objs :: TimesOut(objs[n].value, u, now, after[u])
    {
      if u in Forget(before, listed) {
        assert u in Uids(listed);
      } else {
        var n :| n in objs && TimesOut(objs[n].value, u, now, after[u]);
      }
    }
  }

  lemma RollOn(taken: set<string>, workload: string, draw: Dice, d: nat, due: nat, ok: bool, name: string,
               after: set<string>, d': nat, born: set<string>)
    requires due > 0
    requires var r := Roll(taken, workload, draw, d, CAS_RETRIES);
             && (ok <==> r.Some?)
             && (ok ==> name == Candidate(workload, draw, r.value) && d' == r.value + 1 && after == taken + {name})
             && (!ok ==> d' == d + CAS_RETRIES && after == taken)
    ensures (if ok then born + {name} else born) + Births(after, workload, draw, d', due - 1)
         == born + Births(taken, workload, draw, d, due)
  {
    hide Roll, Candidate;
  }

  lemma NoBirths(taken: set<string>, workload: string, draw: Dice, d: nat)
    ensures Births(taken, workload, draw, d, 0) == {}
  {}

  /** The births avoid every name taken, and are at most as many as the creates. */
  lemma {:induction false} BirthsApart(taken: set<string>, workload: string, draw: Dice, d: nat, count: nat)
    ensures Births(taken, workload, draw, d, count) !! taken && |Births(taken, workload, draw, d, count)| <= count
    decreases count
  {
    hide Roll, Candidate;
    if count > 0 {
      var r := Roll(taken, workload, draw, d, CAS_RETRIES);
      if r.None? {
        BirthsApart(taken, workload, draw, d + CAS_RETRIES, count - 1);
      } else {
        var name := Candidate(workload, draw, r.value);
        RollHit(taken, workload, draw, d);
        BirthsApart(taken + {name}, workload, draw, r.value + 1, count - 1);
        OneApart(taken, name, Births(taken + {name}, workload, draw, r.value + 1, count - 1));
      }
    }
  }

  lemma RollHit(taken: set<string>, workload: string, draw: Dice, d: nat)
    ensures var r := Roll(taken, workload, draw, d, CAS_RETRIES); r.Some? ==>
        Candidate(workload, draw, r.value) !in taken
  {
    hide Candidate;
    RollMeans(taken, workload, draw, d, CAS_RETRIES);
  }

  lemma OneApart(taken: set<string>, name: string, rest: set<string>)
    requires name !in taken && rest !! taken + {name}
    ensures {name} + rest !! taken && |{name} + rest| <= |rest| + 1
  {}

  /** From draw `d` on no suffix hits a taken name or an earlier draw. */
  ghost predicate Clear(taken: set<string>, workload: string, draw: Dice, d: nat) {
    && (forall i: nat | i >= d :: Candidate(workload, draw, i) !in taken)
    && (forall i: nat, j: nat | d <= i < j :: Candidate(workload, draw, i) != Candidate(workload, draw, j))
  }

  lemma ClearOn(taken: set<string>, workload: string, draw: Dice, d: nat)
    requires Clear(taken, workload, draw, d)
    ensures Roll(taken, workload, draw, d, CAS_RETRIES) == Some(d)
    ensures Clear(taken + {Candidate(workload, draw, d)}, workload, draw, d + 1)
  {
    hide Candidate;
  }

  lemma BirthsHead(taken: set<string>, workload: string, draw: Dice, d: nat, count: nat)
    requires count > 0 && Roll(taken, workload, draw, d, CAS_RETRIES) == Some(d)
    ensures var name := Candidate(workload, draw, d);
            var rest := Births(taken + {name}, workload, draw, d + 1, count - 1);
            name !in rest && Births(taken, workload, draw, d, count) == {name} + rest
  {
    hide Roll, Candidate;
    BirthsApart(taken + {Candidate(workload, draw, d)}, workload, draw, d + 1, count - 1);
  }

  /** A create fails only after five taken names in a row, so with clear suffixes to draw a pass cannot fail. */
  lemma {:induction false} ClearDrawsSucceed(taken: set<string>, workload: string, draw: Dice, d: nat, count: nat)
    requires Clear(taken, workload, draw, d)
    ensures |Births(taken, workload, draw, d, count)| == count
    decreases count
  {
    hide Clear, Roll, Candidate;
    if count > 0 {
      ClearOn(taken, workload, draw, d);
      BirthsHead(taken, workload, draw, d, count);
      ClearDrawsSucceed(taken + {Candidate(workload, draw, d)}, workload, draw, d + 1, count - 1);
    }
  }

  /** The groups of the pass list exactly the stored instances, and nothing serving is gone. */
  ghost predicate Classified(tg: Target, g: Groups, objs: Objs, gone: set<string>) {
    && Group(tg, g.current, objs, Fresh) && Group(tg, g.retiring, objs, Retiring)
    && Group(tg, g.draining, objs, OnDrain)
    && Sorted(g.current, Newer) && Sorted(g.retiring, Newer)
    && gone !! InRole(objs, tg, Fresh) && gone !! InRole(objs, tg, Retiring)
  }

  lemma GroupSizesOf(tg: Target, g: Groups, objs: Objs, gone: set<string>)
    requires Classified(tg, g, objs, gone)
    ensures |g.current| == |InRole(objs, tg, Fresh)| && |g.retiring| == |InRole(objs, tg, Retiring)|
    ensures |g.draining| == |InRole(objs, tg, OnDrain)| && Serving(tg, objs) == |g.current| + |g.retiring|
    ensures Group(tg, g.current, objs, Fresh) && Group(tg, g.retiring, objs, Retiring)
  {}

  lemma Surplus(tg: Target, g: Groups, objs: Objs, gone: set<string>)
    requires Classified(tg, g, objs, gone) && |g.current| > tg.replicas
    ensures var vs := g.current[..|g.current| - tg.replicas];
            && Distinct(vs) && Names(vs) !! gone && Choreography(tg, objs, Names(vs), {}) && BirthsDue(tg, objs) == 0
            && forall l | l in vs :: l.value.name in objs && objs[l.value.name] == l
  {
    var k := |g.current| - tg.replicas;
    PrefixIsNewest(tg, g.current, objs, Fresh, k);
    DistinctPrefix(g.current, k);
    forall l | l in g.current[..k] ensures l in g.current {}
  }

  lemma FirstRetiring(tg: Target, g: Groups, objs: Objs, gone: set<string>)
    requires Classified(tg, g, objs, gone) && g.retiring != []
    ensures var l := g.retiring[0];
            && l.value.name in objs && objs[l.value.name] == l && l.value.name !in gone
            && Newest(objs, {l.value.name}, InRole(objs, tg, Retiring), 1)
  {
    FirstIsNewest(tg, g.retiring, objs, Retiring);
    assert g.retiring[0] in g.retiring && g.retiring[0].value.name in Names(g.retiring);
  }

  lemma Refill(tg: Target, objs: Objs, born: set<string>, ok: bool)
    requires Serving(tg, objs) < tg.replicas && (ok <==> |born| == tg.replicas - Serving(tg, objs))
    ensures ok ==> Choreography(tg, objs, {}, born)
    ensures BirthsDue(tg, objs) == tg.replicas - Serving(tg, objs)
  {}

  lemma Idle(tg: Target, objs: Objs)
    requires |InRole(objs, tg, Fresh)| <= tg.replicas <= Serving(tg, objs)
    requires |InRole(objs, tg, Retiring)| == 0 || |InRole(objs, tg, OnDrain)| > 0
    ensures Choreography(tg, objs, {}, {}) && BirthsDue(tg, objs) == 0
  {}

  lemma RollChoice(tg: Target, objs: Objs, action: RollAction, first: string, victims: set<string>, born: set<string>,
                   ok: bool)
    requires |InRole(objs, tg, Fresh)| <= tg.replicas <= Serving(tg, objs)
    requires |InRole(objs, tg, Retiring)| > 0 && |InRole(objs, tg, OnDrain)| == 0
    requires action == Surge <==> Serving(tg, objs) == tg.replicas && AllReady(tg, objs)
    requires action.Drain? <==> Serving(tg, objs) > tg.replicas && (Covered(tg, objs) || SurgeBlocked(tg, objs))
    requires Newest(objs, {first}, InRole(objs, tg, Retiring), 1)
    requires victims == if action.Drain? then {first} else {}
    requires |born| == if action.Surge? && ok then 1 else 0
    ensures ok ==> Choreography(tg, objs, victims, born)
    ensures BirthsDue(tg, objs) == if action.Surge? then 1 else 0
  {}

  /** Drops the deadlines of instances that left the store. */
  function Forget(deadlines: map<nat, int>, ls: seq<Listed>): map<nat, int> {
    map u | u in deadlines && u in Uids(ls) :: deadlines[u]
  }

  function Uids(ls: seq<Listed>): set<nat> {
    set l | l in ls :: l.value.uid
  }

  ghost function ExpiredIn(tg: Target, objs: Objs, deadlines: map<nat, int>, now: int): set<string> {
    set n | n in InRole(objs, tg, OnDrain) && Expired(deadlines, now, objs[n].value)
  }

  datatype RollAction = Wait | Surge | Drain(reason: string)

  /** What the rollout does next, if anything. */
  method NextAction(tg: Target, g: Groups, ghost objs: Objs) returns (a: RollAction)
    requires Group(tg, g.current, objs, Fresh) && Group(tg, g.retiring, objs, Retiring)
    ensures a == Surge <==> Serving(tg, objs) == tg.replicas && AllReady(tg, objs)
    ensures a.Drain? <==> Serving(tg, objs) > tg.replicas && (Covered(tg, objs) || SurgeBlocked(tg, objs))
    ensures a.Drain? ==>
        a.reason == if Covered(tg, objs) then "rollout" else "drain-first fallback: no capacity to surge"
  {
    hide InRole, ReadyNames, AllReady, SurgeBlocked, Blocked, CountReady, Names;
    var ready := ReadyCount(g.current);
    var blocked := AnyBlocked(g.current);
    GroupReady(tg, g.current, objs);
    GroupBlocked(tg, g.current, objs);
    var n := |g.current| + |g.retiring|;
    if n == tg.replicas && ready == |g.current| {
      a := Surge;
    } else if n > tg.replicas && ready >= Min(tg.replicas, |g.current|) {
      a := Drain("rollout");
    } else if n > tg.replicas && blocked {
      a := Drain("drain-first fallback: no capacity to surge");
    } else {
      a := Wait;
    }
  }

  ghost function Serving(tg: Target, objs: Objs): nat {
    |InRole(objs, tg, Fresh)| + |InRole(objs, tg, Retiring)|
  }

  function Min(a: nat, b: nat): nat {
    if a < b then a else b
  }

  method ReadyCount(ls: seq<Listed>) returns (n: nat)
    ensures n == CountReady(ls)
  {
    n := 0;
    for k := 0 to |ls|
      invariant n == CountReady(ls[..k])
    {
      assert ls[..k + 1][..k] == ls[..k];
      if ls[k].value.phase == Ready {
        n := n + 1;
      }
    }
    assert ls[..|ls|] == ls;
  }

  method AnyBlocked(ls: seq<Listed>) returns (b: bool)
    ensures b <==> exists l | l in ls :: Blocked(l.value)
  {
    for k := 0 to |ls|
      invariant forall l | l in ls[..k] :: !Blocked(l.value)
    {
      if Blocked(ls[k].value) {
        return true;
      }
    }
    return false;
  }

  function CountReady(ls: seq<Listed>): nat {
    if ls == [] then 0
    else CountReady(ls[..|ls| - 1]) + if ls[|ls| - 1].value.phase == Ready then 1 else 0
  }

  /** `ls` lists exactly the stored instances of one role, once each. */
  ghost predicate Group(tg: Target, ls: seq<Listed>, objs: Objs, role: Role) {
    && (forall l | l in ls :: l.value.name in objs && objs[l.value.name] == l)
    && Names(ls) == InRole(objs, tg, role) && Distinct(ls)
  }

  lemma MeetOneMore(a: set<string>, n: string, b: set<string>)
    requires n !in a
    ensures |(a + {n}) * b| == |a * b| + if n in b then 1 else 0
  {
    if n in b {
      assert (a + {n}) * b == a * b + {n};
    } else {
      assert (a + {n}) * b == a * b;
    }
  }

  lemma {:induction false} ReadyAmong(ls: seq<Listed>, objs: Objs)
    requires Distinct(ls) && forall l | l in ls :: l.value.name in objs && objs[l.value.name] == l
    ensures |Names(ls) * ReadyNames(objs)| == CountReady(ls)
  {
    if ls == [] {
      assert Names(ls) * ReadyNames(objs) == {};
    } else {
      var k := |ls| - 1;
      var front, n := Names(ls[..k]), ls[k].value.name;
      NextName(ls, k);
      DistinctPrefix(ls, k);
      ReadyAmong(ls[..k], objs);
      assert ls[..k + 1] == ls && ls[k] in ls;
      MeetOneMore(front, n, ReadyNames(objs));
    }
  }

  lemma GroupReady(tg: Target, ls: seq<Listed>, objs: Objs)
    requires Group(tg, ls, objs, Fresh)
    ensures CountReady(ls) == |InRole(objs, tg, Fresh) * ReadyNames(objs)| && |ls| == |InRole(objs, tg, Fresh)|
    ensures CountReady(ls) == |ls| <==> AllReady(tg, objs)
  {
    ReadyAmong(ls, objs);
    var f, ready := InRole(objs, tg, Fresh), ReadyNames(objs);
    MinusSize(f, ready);
    assert ready * f == f * ready;
    if !(f <= ready) {
      var n :| n in f && n !in ready;
      assert n in f - ready;
    } else {
      assert f * ready == f;
    }
  }

  lemma GroupBlocked(tg: Target, ls: seq<Listed>, objs: Objs)
    requires Group(tg, ls, objs, Fresh)
    ensures (exists l | l in ls :: Blocked(l.value)) <==> SurgeBlocked(tg, objs)
  {
    if l :| l in ls && Blocked(l.value) {
      assert l.value.name in Names(ls);
    }
    if n :| n in InRole(objs, tg, Fresh) && Blocked(objs[n].value) {
      assert n in Names(ls);
      var l :| l in ls && l.value.name == n;
    }
  }

  lemma FirstIsNewest(tg: Target, ls: seq<Listed>, objs: Objs, role: Role)
    requires Group(tg, ls, objs, role) && ls != [] && Sorted(ls, Newer)
    ensures Newest(objs, {ls[0].value.name}, InRole(objs, tg, role), 1)
  {
    assert Names(ls[..1]) == {ls[0].value.name};
    PrefixIsNewest(tg, ls, objs, role, 1);
  }

  lemma PrefixIsNewest(tg: Target, ls: seq<Listed>, objs: Objs, role: Role, k: nat)
    requires Group(tg, ls, objs, role) && k <= |ls| && Sorted(ls, Newer)
    ensures Newest(objs, Names(ls[..k]), InRole(objs, tg, role), k)
  {
    hide Newer, Distinct;
    DistinctPrefix(ls, k);
    assert forall l | l in ls[..k] :: l in ls;
    forall a, b | a in Names(ls[..k]) && b in InRole(objs, tg, role) - Names(ls[..k])
      ensures !Newer(objs[b], objs[a])
    {
      NewestSplit(ls, objs, k, a, b);
    }
  }

  lemma NewestSplit(ls: seq<Listed>, objs: Objs, k: nat, a: string, b: string)
    requires k <= |ls| && Sorted(ls, Newer) && a in Names(ls[..k]) && b in Names(ls) && b !in Names(ls[..k])
    requires forall l | l in ls :: l.value.name in objs && objs[l.value.name] == l
    ensures a in objs && b in objs && !Newer(objs[b], objs[a])
  {
    hide Newer;
    var i :| 0 <= i < |ls| && ls[i].value.name == b;
    var j :| 0 <= j < k && ls[j].value.name == a;
    assert forall m | 0 <= m < k :: ls[m] in ls[..k];
    assert ls[i] in ls && ls[j] in ls;
  }

  lemma BirthCarried(tg: Target, objs: Objs, gone: set<string>, born: set<string>, mid: Objs, n: string, after: Objs)
    requires Carried(tg, objs, gone, {}, born, mid) && n !in mid
    requires n in after && after == mid[n := after[n]] && after[n].value.name == n && Newborn(tg, after[n].value)
    ensures n !in born && Carried(tg, objs, gone, {}, born + {n}, after)
  {
    EffectBirth(tg, objs, gone + ({} - ReadyNames(objs)), {} * ReadyNames(objs), born, mid, n, after[n]);
  }

  /** So far the pass removed `gone`, retired `victims` and created `born`. */
  ghost predicate Carried(tg: Target, objs: Objs, gone: set<string>, victims: set<string>, born: set<string>,
                          after: Objs) {
    Effect(tg, objs, gone + (victims - ReadyNames(objs)), victims * ReadyNames(objs), born, after)
  }

  lemma RemovedSoFar(tg: Target, objs: Objs, doomed: set<string>, expired: set<string>, after: Objs)
    requires after == objs - doomed - expired && doomed + expired <= objs.Keys
    ensures Carried(tg, objs, doomed + expired, {}, {}, after)
  {
    assert {} * ReadyNames(objs) == {} && doomed + expired + ({} - ReadyNames(objs)) == doomed + expired;
  }

  function ExpiredNames(draining: seq<Listed>, deadlines: map<nat, int>, now: int): set<string> {
    set l | l in draining && Expired(deadlines, now, l.value) :: l.value.name
  }

  lemma StillPinned(tg: Target, objs: Objs, gone: set<string>, done: set<string>, mid: Objs, l: Listed)
    requires Carried(tg, objs, gone, done, {}, mid)
    requires l.value.name in objs && objs[l.value.name] == l && l.value.name !in done && l.value.name !in gone
    ensures Current(mid, l)
  {
    assert l.value.name in objs.Keys - (gone + (done - ReadyNames(objs))) - done * ReadyNames(objs);
  }

  lemma RetireEffect(tg: Target, objs: Objs, gone: set<string>, done: set<string>, mid: Objs, l: Listed, after: Objs)
    requires Carried(tg, objs, gone, done, {}, mid)
    requires l.value.name in objs && objs[l.value.name] == l && l.value.name !in done && l.value.name !in gone
    requires if l.value.phase == Ready
             then l.value.name in after && after == mid[l.value.name := after[l.value.name]]
                  && after[l.value.name].value == l.value.(phase := Draining,
                                                           message := after[l.value.name].value.message)
             else after == mid - {l.value.name}
    ensures Carried(tg, objs, gone, done + {l.value.name}, {}, after)
  {
    var n, ready := l.value.name, ReadyNames(objs);
    assert n in objs.Keys - (gone + (done - ready)) - (done * ready);
    if l.value.phase == Ready {
      assert (done + {n}) * ready == done * ready + {n} && done + {n} - ready == done - ready;
      EffectDrain(tg, objs, gone + (done - ready), done * ready, {}, mid, n, after[n]);
    } else {
      assert (done + {n}) * ready == done * ready && gone + (done + {n} - ready) == gone + (done - ready) + {n};
      EffectDelete(tg, objs, gone + (done - ready), done * ready, {}, mid, n);
    }
  }

  lemma GroupsListed(tg: Target, listed: seq<Listed>, objs: Objs, g: Groups, before: map<nat, int>, now: int)
    requires Lists(listed, objs)
    requires g.doomed == Select(listed, tg, Doomed) && g.draining == Select(listed, tg, OnDrain)
    requires multiset(g.current) == multiset(Select(listed, tg, Fresh)) && Sorted(g.current, Newer)
    requires multiset(g.retiring) == multiset(Select(listed, tg, Retiring)) && Sorted(g.retiring, Newer)
    ensures ExpiredNames(g.draining, Forget(before, listed), now) == ExpiredIn(tg, objs, before, now)
    ensures ExpiredIn(tg, objs, before, now) <= InRole(objs, tg, OnDrain)
    ensures Names(g.doomed) == InRole(objs, tg, Doomed) && Names(g.doomed) !! Names(g.draining)
    ensures (forall l | l in g.doomed :: Current(objs, l)) && (forall l | l in g.draining :: Current(objs, l))
    ensures Group(tg, g.draining, objs, OnDrain)
    ensures forall l | l in g.draining :: l.value.name in objs && objs[l.value.name] == l
    ensures Classified(tg, g, objs, Names(g.doomed) + ExpiredIn(tg, objs, before, now))
  {
    GroupNames(listed, objs, tg, Fresh);
    GroupNames(listed, objs, tg, Retiring);
    GroupNames(listed, objs, tg, Doomed);
    GroupNames(listed, objs, tg, OnDrain);
    Reordered(tg, Select(listed, tg, Fresh), g.current, objs, Fresh);
    Reordered(tg, Select(listed, tg, Retiring), g.retiring, objs, Retiring);
    RolesDisjoint(tg, objs);
    ExpiredListed(tg, listed, g.draining, objs, before, now);
  }

  lemma Reordered(tg: Target, a: seq<Listed>, b: seq<Listed>, objs: Objs, role: Role)
    requires Group(tg, a, objs, role) && multiset(a) == multiset(b)
    ensures Group(tg, b, objs, role)
  {
    DistinctPermutation(a, b);
    forall l | l in b ensures l in a {
      assert l in multiset(b);
    }
  }

  /** Forgetting vanished instances' deadlines changes nothing for the listed ones. */
  lemma ExpiredListed(tg: Target, listed: seq<Listed>, draining: seq<Listed>, objs: Objs, before: map<nat, int>,
                      now: int)
    requires draining == Select(listed, tg, OnDrain) && Group(tg, draining, objs, OnDrain)
    ensures ExpiredNames(draining, Forget(before, listed), now) == ExpiredIn(tg, objs, before, now)
  {
    var deadlines := Forget(before, listed);
    forall l | l in draining
      ensures l.value.name in InRole(objs, tg, OnDrain) && objs[l.value.name] == l
      ensures Expired(deadlines, now, l.value) <==> Expired(before, now, l.value)
    {
      assert l.value.name in Names(draining) && l in listed;
    }
    forall n | n in ExpiredIn(tg, objs, before, now) ensures n in ExpiredNames(draining, deadlines, now) {
      assert n in Names(draining);
      var l :| l in draining && l.value.name == n;
    }
  }

  lemma Concluded(tg: Target, objs: Objs, expired: set<string>, victims: set<string>, born: set<string>, after: Objs,
                  ok: bool)
    requires ok ==> Choreography(tg, objs, victims, born)
    requires expired <= InRole(objs, tg, OnDrain)
    requires Carried(tg, objs, InRole(objs, tg, Doomed) + expired, victims, born, after)
    ensures ok ==> Pass(tg, objs, expired, victims, born, after)
    ensures victims == {} ==> Effect(tg, objs, InRole(objs, tg, Doomed) + expired, {}, born, after)
  {
    if victims == {} {
      var gone := InRole(objs, tg, Doomed) + expired;
      assert gone + (victims - ReadyNames(objs)) == gone && victims * ReadyNames(objs) == {};
    }
  }

  lemma CarriedKeys(tg: Target, objs: Objs, doomed: set<string>, expired: set<string>, after: Objs)
    requires Carried(tg, objs, doomed + expired, {}, {}, after)
    ensures after.Keys == objs.Keys - doomed - expired
  {
    assert after.Keys == objs.Keys - (doomed + expired + ({} - ReadyNames(objs))) + {};
  }
}
