/** NetworkPolicy evaluation: DENY wins, and an ALLOW rule flips its target to allowlist mode. */
module Policy {
  import opened Order

  datatype Action = Unspecified | Allow | Deny

  datatype Rule = Rule(src: string, dst: string, except: seq<string>)

  datatype NetworkPolicy = NetworkPolicy(name: string, action: Action, rules: seq<Rule>)

  datatype Reason =
    | DeniedBy(policy: string, rule: nat)
    | AllowedBy(policy: string, rule: nat)
    | DefaultAllow(to: string)
    | NotAdmitted(to: string, src: string)

  datatype Decision = Decision(allowed: bool, matched: string, reason: Reason)

  predicate FromMatches(r: Rule, src: string) {
    r.src == "*" || r.src == src
  }

  /** The except list is consulted only on the wildcard. */
  predicate Targets(r: Rule, to: string) {
    r.dst == to || (r.dst == "*" && to !in r.except)
  }

  predicate Matches(r: Rule, src: string, to: string) {
    FromMatches(r, src) && Targets(r, to)
  }

  // ---------------------------------------------------------------- what a decision is

  predicate Hit(p: NetworkPolicy, action: Action, src: string, to: string) {
    p.action == action && exists r | r in p.rules :: Matches(r, src, to)
  }

  predicate AnyHit(ps: seq<NetworkPolicy>, action: Action, src: string, to: string) {
    exists p | p in ps :: Hit(p, action, src, to)
  }

  /** Some ALLOW rule targets the service. */
  predicate Allowlisted(ps: seq<NetworkPolicy>, to: string) {
    exists p | p in ps && p.action == Allow :: exists r | r in p.rules :: Targets(r, to)
  }

  /** The verdict alone, with no reference to any order. */
  predicate Admitted(ps: seq<NetworkPolicy>, src: string, to: string) {
    !AnyHit(ps, Deny, src, to) && (Allowlisted(ps, to) ==> AnyHit(ps, Allow, src, to))
  }

  predicate ByName(a: NetworkPolicy, b: NetworkPolicy) {
    Less(a.name, b.name)
  }

  ghost predicate FirstRule(p: NetworkPolicy, src: string, to: string, i: nat) {
    i < |p.rules| && Matches(p.rules[i], src, to) && forall j | 0 <= j < i :: !Matches(p.rules[j], src, to)
  }

  /**
   Policy `k` is the hit least by name, earliest in the input among equal names, and rule `i` its first matching one.
   */
  ghost predicate Culprit(ps: seq<NetworkPolicy>, action: Action, src: string, to: string, k: nat, i: nat) {
    && k < |ps| && Hit(ps[k], action, src, to) && FirstRule(ps[k], src, to, i)
    && (forall j | 0 <= j < |ps| && Hit(ps[j], action, src, to) ::
          !ByName(ps[j], ps[k]) && (ByName(ps[k], ps[j]) || k <= j))
  }

  ghost predicate Decides(ps: seq<NetworkPolicy>, src: string, to: string, d: Decision) {
    if AnyHit(ps, Deny, src, to) then
      exists k: nat, i: nat ::
          Culprit(ps, Deny, src, to, k, i) && d == Decision(false, ps[k].name, DeniedBy(ps[k].name, i + 1))
    else if AnyHit(ps, Allow, src, to) then
      exists k: nat, i: nat ::
          Culprit(ps, Allow, src, to, k, i) && d == Decision(true, ps[k].name, AllowedBy(ps[k].name, i + 1))
    else if !Allowlisted(ps, to) then d == Decision(true, "", DefaultAllow(to))
    else d == Decision(false, "", NotAdmitted(to, src))
  }

  lemma ByNameStrict()
    ensures Strict(ByName)
  {
    LessStrict();
    forall x: NetworkPolicy, y: NetworkPolicy, z: NetworkPolicy
      ensures ByName(x, y) && ByName(y, z) ==> ByName(x, z)
      ensures ByName(x, z) ==> ByName(x, y) || ByName(y, z)
    {
      assert Less(x.name, y.name) || !Less(x.name, y.name);
    }
  }

  lemma SortedMembers(ps: seq<NetworkPolicy>)
    ensures forall p :: p in Sort(ps, ByName) <==> p in ps
  {
    forall p ensures p in Sort(ps, ByName) <==> p in ps {
      assert p in Sort(ps, ByName) <==> p in multiset(Sort(ps, ByName));
      assert p in ps <==> p in multiset(ps);
    }
  }

  lemma SortedKeepsHits(ps: seq<NetworkPolicy>, action: Action, src: string, to: string)
    ensures AnyHit(Sort(ps, ByName), action, src, to) == AnyHit(ps, action, src, to)
    ensures Allowlisted(Sort(ps, ByName), to) == Allowlisted(ps, to)
  {
    SortedMembers(ps);
  }

  /** The first hit of the sorted list is the culprit of the input, whatever order that came in. */
  lemma SortedCulprit(ps: seq<NetworkPolicy>, action: Action, src: string, to: string, n: nat, i: nat) returns (k: nat)
    requires var s := Sort(ps, ByName);
             n < |s| && Hit(s[n], action, src, to) && FirstRule(s[n], src, to, i)
             && forall j | 0 <= j < n :: !Hit(s[j], action, src, to)
    ensures Culprit(ps, action, src, to, k, i) && ps[k] == Sort(ps, ByName)[n]
  {
    var hit := (p: NetworkPolicy) => Hit(p, action, src, to);
    var s := Sort(ps, ByName);
    FirstIs(s, hit, n);
    SortedMembers(ps);
    assert s[n] in ps && hit(s[n]);
    ByNameStrict();
    k := SortFirst(ps, ByName, hit);
    assert hit(ps[k]);
    forall j | 0 <= j < |ps| && Hit(ps[j], action, src, to)
      ensures !ByName(ps[j], ps[k]) && (ByName(ps[k], ps[j]) || k <= j)
    {
      assert hit(ps[j]);
    }
  }

  // ---------------------------------------------------------------- evaluation

  method FirstMatching(p: NetworkPolicy, src: string, to: string) returns (found: bool, i: nat)
    ensures found <==> exists r | r in p.rules :: Matches(r, src, to)
    ensures found ==> FirstRule(p, src, to, i)
  {
    i := 0;
    while i < |p.rules|
      invariant i <= |p.rules| && forall j | 0 <= j < i :: !Matches(p.rules[j], src, to)
    {
      if Matches(p.rules[i], src, to) {
        return true, i;
      }
      i := i + 1;
    }
    found := false;
  }

  /** The ALLOW scan of one policy stops at the first rule that admits, having noticed every target before it. */
  method ScanAllow(p: NetworkPolicy, src: string, to: string) returns (found: bool, i: nat, targeted: bool)
    ensures found <==> exists r | r in p.rules :: Matches(r, src, to)
    ensures found ==> FirstRule(p, src, to, i)
    ensures !found ==> (targeted <==> exists r | r in p.rules :: Targets(r, to))
  {
    i, targeted := 0, false;
    while i < |p.rules|
      invariant i <= |p.rules| && forall j | 0 <= j < i :: !Matches(p.rules[j], src, to)
      invariant targeted <==> exists j | 0 <= j < i :: Targets(p.rules[j], to)
    {
      if Targets(p.rules[i], to) {
        targeted := true;
        if FromMatches(p.rules[i], src) {
          assert Matches(p.rules[i], src, to);
          return true, i, true;
        }
      }
      i := i + 1;
    }
    found := false;
  }

  /** The verdict a decision carries is the order-free one. */
  lemma DecidesVerdict(ps: seq<NetworkPolicy>, src: string, to: string, d: Decision)
    requires Decides(ps, src, to, d)
    ensures d.allowed <==> Admitted(ps, src, to)
  {
    hide Culprit, Hit;
    if AnyHit(ps, Allow, src, to) {
      HitTargets(ps, src, to);
    }
  }

  lemma HitTargets(ps: seq<NetworkPolicy>, src: string, to: string)
    requires AnyHit(ps, Allow, src, to)
    ensures Allowlisted(ps, to)
  {}

  ghost predicate NoHitBefore(s: seq<NetworkPolicy>, n: nat, action: Action, src: string, to: string) {
    n <= |s| && forall j | 0 <= j < n :: !Hit(s[j], action, src, to)
  }

  /** Whether some ALLOW rule among the first `n` policies targets the service. */
  ghost predicate AllowlistedBefore(s: seq<NetworkPolicy>, n: nat, to: string) {
    n <= |s| && exists j | 0 <= j < n :: s[j].action == Allow && exists r | r in s[j].rules :: Targets(r, to)
  }

  lemma ScanStep(s: seq<NetworkPolicy>, n: nat, action: Action, src: string, to: string)
    requires n < |s| && NoHitBefore(s, n, action, src, to)
    requires s[n].action == action ==> !exists r | r in s[n].rules :: Matches(r, src, to)
    ensures NoHitBefore(s, n + 1, action, src, to)
    ensures AllowlistedBefore(s, n + 1, to) <==>
        AllowlistedBefore(s, n, to) || (s[n].action == Allow && exists r | r in s[n].rules :: Targets(r, to))
  {}

  lemma ScanStarts(s: seq<NetworkPolicy>, action: Action, src: string, to: string)
    ensures NoHitBefore(s, 0, action, src, to) && !AllowlistedBefore(s, 0, to)
  {}

  lemma ScanEnds(ps: seq<NetworkPolicy>, n: nat, action: Action, src: string, to: string)
    requires var s := Sort(ps, ByName); n == |s| && NoHitBefore(s, n, action, src, to)
    ensures !AnyHit(ps, action, src, to)
    ensures AllowlistedBefore(Sort(ps, ByName), n, to) <==> Allowlisted(ps, to)
  {
    hide Matches, Targets;
    SortedKeepsHits(ps, action, src, to);
  }

  lemma HitDecides(ps: seq<NetworkPolicy>, n: nat, i: nat, action: Action, src: string, to: string, d: Decision)
    requires action != Unspecified && var s := Sort(ps, ByName);
             && NoHitBefore(s, n, action, src, to) && n < |s| && s[n].action == action && FirstRule(s[n], src, to, i)
             && d == if action == Deny then Decision(false, s[n].name, DeniedBy(s[n].name, i + 1))
                     else Decision(true, s[n].name, AllowedBy(s[n].name, i + 1))
    requires action == Allow ==> !AnyHit(ps, Deny, src, to)
    ensures Decides(ps, src, to, d)
  {
    var s := Sort(ps, ByName);
    assert s[n].rules[i] in s[n].rules;
    assert Hit(s[n], action, src, to);
    hide Matches, FirstRule, Hit;
    var k := SortedCulprit(ps, action, src, to, n, i);
    CulpritHits(ps, action, src, to, k, i);
  }

  lemma CulpritHits(ps: seq<NetworkPolicy>, action: Action, src: string, to: string, k: nat, i: nat)
    requires Culprit(ps, action, src, to, k, i)
    ensures AnyHit(ps, action, src, to) && k < |ps|
  {
    assert ps[k] in ps;
  }

  /** The DENY scan: the first matching rule in name order settles the matter. */
  method ScanDenies(ps: seq<NetworkPolicy>, src: string, to: string) returns (found: bool, d: Decision)
    ensures found ==> Decides(ps, src, to, d)
    ensures !found ==> !AnyHit(ps, Deny, src, to)
  {
    hide *;
    found, d := false, Decision(false, "", DefaultAllow(to));
    var s := Sort(ps, ByName);
    ScanStarts(s, Deny, src, to);
    var n := 0;
    while n < |s|
      invariant n <= |s| && NoHitBefore(s, n, Deny, src, to)
    {
      if s[n].action == Deny {
        var hit, i := FirstMatching(s[n], src, to);
        if hit {
          d := Decision(false, s[n].name, DeniedBy(s[n].name, i + 1));
          HitDecides(ps, n, i, Deny, src, to, d);
          return true, d;
        }
      }
      ScanStep(s, n, Deny, src, to);
      n := n + 1;
    }
    ScanEnds(ps, n, Deny, src, to);
  }

  /** The verdict on the policies' own fields: what a rule names as source and destination, and whom it excepts. */
  ghost predicate AdmittedByFields(ps: seq<NetworkPolicy>, src: string, to: string) {
    && !(exists p, r | p in ps && r in p.rules ::
           p.action == Deny && (r.src == "*" || r.src == src) && (r.dst == to || (r.dst == "*" && to !in r.except)))
    && ((exists p, r | p in ps && r in p.rules ::
           p.action == Allow && (r.dst == to || (r.dst == "*" && to !in r.except))) ==>
        exists p, r | p in ps && r in p.rules ::
          p.action == Allow && (r.src == "*" || r.src == src) && (r.dst == to || (r.dst == "*" && to !in r.except)))
  }

  lemma AdmittedMeans(ps: seq<NetworkPolicy>, src: string, to: string)
    ensures Admitted(ps, src, to) <==> AdmittedByFields(ps, src, to)
  {
    forall action
      ensures AnyHit(ps, action, src, to) <==> exists p, r | p in ps && r in p.rules ::
                p.action == action && (r.src == "*" || r.src == src)
                && (r.dst == to || (r.dst == "*" && to !in r.except))
    {
      HitMeans(ps, action, src, to);
    }
    AllowlistedMeans(ps, to);
    hide AnyHit, Allowlisted;
  }

  lemma HitMeans(ps: seq<NetworkPolicy>, action: Action, src: string, to: string)
    ensures AnyHit(ps, action, src, to) <==> exists p, r | p in ps && r in p.rules ::
              p.action == action && (r.src == "*" || r.src == src) && (r.dst == to || (r.dst == "*" && to !in r.except))
  {
    if AnyHit(ps, action, src, to) {
      var p :| p in ps && Hit(p, action, src, to);
      var r :| r in p.rules && Matches(r, src, to);
    }
    forall p, r | p in ps && r in p.rules && p.action == action && FromMatches(r, src) && Targets(r, to)
      ensures AnyHit(ps, action, src, to)
    {
      assert Matches(r, src, to);
      assert Hit(p, action, src, to);
    }
  }

  lemma AllowlistedMeans(ps: seq<NetworkPolicy>, to: string)
    ensures Allowlisted(ps, to) <==> exists p, r | p in ps && r in p.rules ::
              p.action == Allow && (r.dst == to || (r.dst == "*" && to !in r.except))
  {
    if p, r :| p in ps && r in p.rules && p.action == Allow && (r.dst == to || (r.dst == "*" && to !in r.except)) {
      assert Targets(r, to);
    }
  }

  /** Decides one connection; the reason names the responsible policy and its rule, counted from one. */
  method Evaluate(ps: seq<NetworkPolicy>, src: string, to: string) returns (d: Decision)
    ensures Decides(ps, src, to, d)
    ensures d.allowed <==> Admitted(ps, src, to)
    ensures d.allowed <==> AdmittedByFields(ps, src, to)
  {
    hide *;
    AdmittedMeans(ps, src, to);
    var denied;
    denied, d := ScanDenies(ps, src, to);
    if denied {
      DecidesVerdict(ps, src, to, d);
      return;
    }
    var s := Sort(ps, ByName);
    ScanStarts(s, Allow, src, to);
    var n, allowlisted := 0, false;
    while n < |s|
      invariant n <= |s| && NoHitBefore(s, n, Allow, src, to)
      invariant allowlisted <==> AllowlistedBefore(s, n, to)
    {
      if s[n].action == Allow {
        var found, i, targeted := ScanAllow(s[n], src, to);
        if found {
          d := Decision(true, s[n].name, AllowedBy(s[n].name, i + 1));
          HitDecides(ps, n, i, Allow, src, to, d);
          DecidesVerdict(ps, src, to, d);
          return;
        }
        allowlisted := allowlisted || targeted;
      }
      ScanStep(s, n, Allow, src, to);
      n := n + 1;
    }
    ScanEnds(ps, n, Allow, src, to);
    d := if !allowlisted then Decision(true, "", DefaultAllow(to)) else Decision(false, "", NotAdmitted(to, src));
    MissDecides(ps, src, to, d, allowlisted);
    DecidesVerdict(ps, src, to, d);
  }

  lemma MissDecides(ps: seq<NetworkPolicy>, src: string, to: string, d: Decision, allowlisted: bool)
    requires !AnyHit(ps, Deny, src, to) && !AnyHit(ps, Allow, src, to) && (allowlisted <==> Allowlisted(ps, to))
    requires d == if !allowlisted then Decision(true, "", DefaultAllow(to))
    else Decision(false, "", NotAdmitted(to, src))
    ensures Decides(ps, src, to, d)
  {}

  ghost predicate DistinctNames(ps: seq<NetworkPolicy>) {
    forall p, q | p in ps && q in ps :: p.name == q.name ==> p == q
  }

  lemma SameHits(ps: seq<NetworkPolicy>, qs: seq<NetworkPolicy>, action: Action, src: string, to: string)
    requires forall p :: p in ps <==> p in qs
    ensures AnyHit(ps, action, src, to) == AnyHit(qs, action, src, to) && Allowlisted(ps, to) == Allowlisted(qs, to)
  {}

  lemma SameCulprit(ps: seq<NetworkPolicy>, qs: seq<NetworkPolicy>, action: Action, src: string, to: string,
                    k: nat, i: nat, k': nat, i': nat)
    requires (forall p :: p in ps <==> p in qs) && DistinctNames(ps)
    requires Culprit(ps, action, src, to, k, i) && Culprit(qs, action, src, to, k', i')
    ensures k < |ps| && k' < |qs| && ps[k] == qs[k'] && i == i'
  {
    assert ps[k] in qs && qs[k'] in ps;
    LessTotal(ps[k].name, qs[k'].name);
  }

  /**
   With distinct policy names the decision, reason included, does not depend on the order (or repetition) of the input.
   */
  lemma OrderIndependent(ps: seq<NetworkPolicy>, qs: seq<NetworkPolicy>, src: string, to: string, d: Decision,
                         e: Decision)
    requires (forall p :: p in ps <==> p in qs) && DistinctNames(ps)
    requires Decides(ps, src, to, d) && Decides(qs, src, to, e)
    ensures d == e
  {
    hide Culprit, AnyHit, Allowlisted;
    SameHits(ps, qs, Deny, src, to);
    SameHits(ps, qs, Allow, src, to);
    forall action, k: nat, i: nat, k': nat, i': nat
      | Culprit(ps, action, src, to, k, i) && Culprit(qs, action, src, to, k', i')
      ensures k < |ps| && k' < |qs| && ps[k] == qs[k'] && i == i'
    {
      SameCulprit(ps, qs, action, src, to, k, i, k', i');
    }
  }

  lemma CulpritUnique(ps: seq<NetworkPolicy>, action: Action, src: string, to: string, k: nat, i: nat, k': nat, i': nat)
    requires Culprit(ps, action, src, to, k, i) && Culprit(ps, action, src, to, k', i')
    ensures k == k' && i == i'
  {}

  /** Leaving a policy that is no hit out of the list leaves the culprit in it. */
  lemma CulpritSkips(a: seq<NetworkPolicy>, q: NetworkPolicy, b: seq<NetworkPolicy>, action: Action, src: string,
                     to: string, k: nat, i: nat) returns (k': nat)
    requires Culprit(a + [q] + b, action, src, to, k, i) && !Hit(q, action, src, to)
    ensures k < |a + [q] + b| && Culprit(a + b, action, src, to, k', i) && (a + b)[k'] == (a + [q] + b)[k]
  {
    hide Hit, FirstRule, ByName;
    var all, less := a + [q] + b, a + b;
    assert all[|a|] == q;
    k' := if k < |a| then k else k - 1;
    forall j | 0 <= j < |less| && Hit(less[j], action, src, to)
      ensures !ByName(less[j], less[k']) && (ByName(less[k'], less[j]) || k' <= j)
    {
      var j' := if j < |a| then j else j + 1;
      assert all[j'] == less[j];
    }
  }

  /** None of the policy's rules reaches the service: each names another, or names all but excepts it. */
  ghost predicate Spares(q: NetworkPolicy, to: string) {
    forall r | r in q.rules :: r.dst != to && (r.dst == "*" ==> to in r.except)
  }

  lemma SparesAll(a: seq<NetworkPolicy>, q: NetworkPolicy, b: seq<NetworkPolicy>, action: Action, src: string,
                  to: string)
    requires Spares(q, to)
    ensures !Hit(q, action, src, to)
    ensures AnyHit(a + [q] + b, action, src, to) == AnyHit(a + b, action, src, to)
    ensures Allowlisted(a + [q] + b, to) == Allowlisted(a + b, to)
  {
    assert forall p :: p in a + [q] + b <==> p in a + b || p == q;
  }

  /** A policy that excepts a service, wherever it stands in the list, has no say in any decision about it. */
  lemma ExceptedHasNoSay(a: seq<NetworkPolicy>, q: NetworkPolicy, b: seq<NetworkPolicy>, src: string, to: string,
                         d: Decision, e: Decision)
    requires Spares(q, to) && Decides(a + [q] + b, src, to, d) && Decides(a + b, src, to, e)
    ensures d == e
  {
    SparesAll(a, q, b, Deny, src, to);
    SparesAll(a, q, b, Allow, src, to);
    hide Culprit, AnyHit, Allowlisted, Hit, Spares;
    forall action, k: nat, i: nat, k': nat, i': nat
      | !Hit(q, action, src, to)
        && Culprit(a + [q] + b, action, src, to, k, i) && Culprit(a + b, action, src, to, k', i')
      ensures k < |a + [q] + b| && k' < |a + b| && (a + [q] + b)[k] == (a + b)[k'] && i == i'
    {
      var j := CulpritSkips(a, q, b, action, src, to, k, i);
      CulpritUnique(a + b, action, src, to, j, i, k', i');
      CulpritInRange(a + b, action, src, to, k', i');
    }
  }

  lemma CulpritInRange(ps: seq<NetworkPolicy>, action: Action, src: string, to: string, k: nat, i: nat)
    requires Culprit(ps, action, src, to, k, i)
    ensures k < |ps|
  {}

  /** A rule that names the service applies to it even if it excepts it too: a DENY then always denies. */
  lemma NamedRuleApplies(ps: seq<NetworkPolicy>, p: NetworkPolicy, r: Rule, src: string, to: string, d: Decision)
    requires p in ps && p.action == Deny && r in p.rules && r.dst == to && (r.src == "*" || r.src == src)
    requires Decides(ps, src, to, d)
    ensures !d.allowed && d.reason.DeniedBy?
  {
    assert Matches(r, src, to);
    assert Hit(p, Deny, src, to);
  }

  /** A rule applies to a connection, on its own fields. */
  ghost predicate Applies(r: Rule, src: string, to: string) {
    (r.src == "*" || r.src == src) && (r.dst == to || (r.dst == "*" && to !in r.except))
  }

  /**
   Policy number `k` carries the blame with its rule number `i`: no policy of
   the action with a rule that applies has a smaller name, of equal names none
   is listed before it, and no earlier rule of it applies.
   */
  ghost predicate Blamed(ps: seq<NetworkPolicy>, action: Action, src: string, to: string, k: nat, i: nat) {
    && k < |ps| && ps[k].action == action && i < |ps[k].rules| && Applies(ps[k].rules[i], src, to)
    && (forall j | 0 <= j < i :: !Applies(ps[k].rules[j], src, to))
    && (forall m, r | 0 <= m < |ps| && ps[m].action == action && r in ps[m].rules && Applies(r, src, to) ::
          !Less(ps[m].name, ps[k].name) && (ps[m].name == ps[k].name ==> k <= m))
  }

  lemma CulpritMeans(ps: seq<NetworkPolicy>, action: Action, src: string, to: string, k: nat, i: nat)
    requires Culprit(ps, action, src, to, k, i)
    ensures Blamed(ps, action, src, to, k, i)
  {
    assert forall r :: Applies(r, src, to) <==> Matches(r, src, to);
    hide Applies, Matches;
    forall m, r | 0 <= m < |ps| && ps[m].action == action && r in ps[m].rules && Applies(r, src, to)
      ensures !Less(ps[m].name, ps[k].name) && (ps[m].name == ps[k].name ==> k <= m)
    {
      assert Hit(ps[m], action, src, to);
      LessTotal(ps[m].name, ps[k].name);
    }
  }

  /** The reason a decision gives, on the policies' own fields. */
  lemma ReasonMeans(ps: seq<NetworkPolicy>, src: string, to: string, d: Decision)
    requires Decides(ps, src, to, d)
    ensures match d.reason
            case DeniedBy(p, n) => !d.allowed && d.matched == p
              && exists k: nat, i: nat :: Blamed(ps, Deny, src, to, k, i) && p == ps[k].name && n == i + 1
            case AllowedBy(p, n) => d.allowed && d.matched == p
              && exists k: nat, i: nat :: Blamed(ps, Allow, src, to, k, i) && p == ps[k].name && n == i + 1
            case DefaultAllow(t) => d.allowed && d.matched == "" && t == to
            case NotAdmitted(t, f) => !d.allowed && d.matched == "" && t == to && f == src
  {
    hide AnyHit, Allowlisted;
    forall action, k: nat, i: nat | Culprit(ps, action, src, to, k, i)
      ensures k < |ps| && Blamed(ps, action, src, to, k, i)
    {
      CulpritMeans(ps, action, src, to, k, i);
    }
    hide Culprit, Blamed;
  }

  // ---------------------------------------------------------------- compilation

  datatype Compiled = Compiled(action: Action, src: string, dst: string, except: seq<string>, policy: string)

  function CompiledRule(c: Compiled): Rule {
    Rule(c.src, c.dst, c.except)
  }

  /** One entry per rule. */
  function OfPolicy(p: NetworkPolicy): (out: seq<Compiled>) {
    seq(|p.rules|,
        i requires 0 <= i < |p.rules| => Compiled(p.action, p.rules[i].src, p.rules[i].dst, p.rules[i].except, p.name))
  }

  /** `c` stands for a rule of one of the policies. */
  ghost predicate Stands(ps: seq<NetworkPolicy>, c: Compiled) {
    exists p | p in ps :: CompiledRule(c) in p.rules && c.action == p.action && c.policy == p.name
  }

  lemma CollectedStands(ps: seq<NetworkPolicy>, c: Compiled)
    ensures c in Collect(ps, OfPolicy) <==> Stands(ps, c)
  {
    CollectMembers(ps, OfPolicy, c);
    forall p | p in ps
      ensures c in OfPolicy(p) <==> CompiledRule(c) in p.rules && c.action == p.action && c.policy == p.name
    {
      if CompiledRule(c) in p.rules && c.action == p.action && c.policy == p.name {
        var i :| 0 <= i < |p.rules| && p.rules[i] == CompiledRule(c);
        assert OfPolicy(p)[i] == c;
      }
    }
  }

  lemma StandsSorted(ps: seq<NetworkPolicy>, c: Compiled)
    ensures Stands(Sort(ps, ByName), c) <==> Stands(ps, c)
  {
    SortedMembers(ps);
  }

  /** Appends one policy's rules. */
  method CompileRules(p: NetworkPolicy, before: seq<Compiled>) returns (out: seq<Compiled>)
    ensures out == before + OfPolicy(p)
  {
    out := before;
    for i := 0 to |p.rules|
      invariant out == before + OfPolicy(p)[..i]
    {
      out := out + [Compiled(p.action, p.rules[i].src, p.rules[i].dst, p.rules[i].except, p.name)];
    }
    assert OfPolicy(p)[..|p.rules|] == OfPolicy(p);
  }

  /** The wire form: the sorted policies' rules laid end to end. */
  method Compile(ps: seq<NetworkPolicy>) returns (out: seq<Compiled>)
    ensures out == Collect(Sort(ps, ByName), OfPolicy)
    ensures forall c :: c in out <==> Stands(ps, c)
    ensures InNameOrder(out)
  {
    hide OfPolicy, Stands, Less;
    var s := Sort(ps, ByName);
    out := [];
    for n := 0 to |s|
      invariant out == Collect(s[..n], OfPolicy)
    {
      out := CompileRules(s[n], out);
      CollectStep(s, OfPolicy, n);
    }
    assert s[..|s|] == s;
    ByNameStrict();
    SortSorted(ps, ByName);
    CompiledInOrder(s);
    forall c ensures c in out <==> Stands(ps, c) {
      CollectedStands(s, c);
      StandsSorted(ps, c);
    }
  }

  ghost predicate InNameOrder(cs: seq<Compiled>) {
    forall i, j | 0 <= i < j < |cs| :: !Less(cs[j].policy, cs[i].policy)
  }

  lemma {:induction false} CompiledInOrder(s: seq<NetworkPolicy>)
    requires Sorted(s, ByName)
    ensures InNameOrder(Collect(s, OfPolicy))
  {
    hide Stands, Less;
    if s != [] {
      var k := |s| - 1;
      var init, p := s[..k], s[k];
      var front, back := Collect(init, OfPolicy), OfPolicy(p);
      CompiledInOrder(init);
      forall c | c in front ensures !Less(p.name, c.policy) {
        CollectedStands(init, c);
        StandsBefore(s, k, c);
      }
      LessTotal(p.name, p.name);
      var out := Collect(s, OfPolicy);
      assert out == front + back;
      forall i, j | 0 <= i < j < |out| ensures !Less(out[j].policy, out[i].policy) {
        if j >= |front| {
          assert out[j].policy == p.name && if i < |front| then out[i] in front else out[i].policy == p.name;
        } else {
          assert out[i] == front[i] && out[j] == front[j];
        }
      }
    }
  }

  lemma StandsBefore(s: seq<NetworkPolicy>, k: nat, c: Compiled)
    requires k < |s| && Sorted(s, ByName) && Stands(s[..k], c)
    ensures !Less(s[k].name, c.policy)
  {
    var p :| p in s[..k] && CompiledRule(c) in p.rules && c.action == p.action && c.policy == p.name;
    var i :| 0 <= i < k && s[i] == p;
    assert !ByName(s[k], s[i]);
  }

  /** A source known by its service, or by nothing at all. */
  datatype Source = Service(name: string) | Unidentified

  predicate Satisfies(src: Source, from: string) {
    from == "*" || src == Service(from)
  }

  ghost predicate CompiledHit(cs: seq<Compiled>, action: Action, src: Source, to: string) {
    exists c | c in cs :: c.action == action && Targets(CompiledRule(c), to) && Satisfies(src, c.src)
  }

  ghost predicate CompiledTargeted(cs: seq<Compiled>, to: string) {
    exists c | c in cs :: c.action == Allow && Targets(CompiledRule(c), to)
  }

  /** The verdict read off compiled entries. */
  ghost predicate AdmittedCompiled(cs: seq<Compiled>, src: Source, to: string) {
    !CompiledHit(cs, Deny, src, to) && (CompiledTargeted(cs, to) ==> CompiledHit(cs, Allow, src, to))
  }

  /** `x` stands in for a source: it is the source's service, or a name no rule mentions. */
  ghost predicate Impersonates(ps: seq<NetworkPolicy>, src: Source, x: string) {
    src == Service(x) || (src == Unidentified && forall p, r | p in ps && r in p.rules :: r.src != x)
  }

  lemma CompiledHits(ps: seq<NetworkPolicy>, cs: seq<Compiled>, action: Action, src: Source, x: string, to: string)
    requires (forall c :: c in cs <==> Stands(ps, c)) && Impersonates(ps, src, x)
    ensures CompiledHit(cs, action, src, to) <==> AnyHit(ps, action, x, to)
  {
    hide Targets;
    if CompiledHit(cs, action, src, to) {
      var c :| c in cs && c.action == action && Targets(CompiledRule(c), to) && Satisfies(src, c.src);
      assert Stands(ps, c);
      assert Matches(CompiledRule(c), x, to);
    }
    if AnyHit(ps, action, x, to) {
      var p :| p in ps && Hit(p, action, x, to);
      var r :| r in p.rules && Matches(r, x, to);
      var c := Compiled(p.action, r.src, r.dst, r.except, p.name);
      assert CompiledRule(c) == r;
      assert Stands(ps, c);
    }
  }

  lemma CompiledTargets(ps: seq<NetworkPolicy>, cs: seq<Compiled>, to: string)
    requires forall c :: c in cs <==> Stands(ps, c)
    ensures CompiledTargeted(cs, to) <==> Allowlisted(ps, to)
  {
    hide Targets;
    if CompiledTargeted(cs, to) {
      var c :| c in cs && c.action == Allow && Targets(CompiledRule(c), to);
      assert Stands(ps, c);
    }
    if Allowlisted(ps, to) {
      var p :| p in ps && p.action == Allow && exists r | r in p.rules :: Targets(r, to);
      var r :| r in p.rules && Targets(r, to);
      var c := Compiled(p.action, r.src, r.dst, r.except, p.name);
      assert CompiledRule(c) == r;
      assert Stands(ps, c);
    }
  }

  /** Compilation keeps the meaning of a policy set; an unidentified source fares like any service no rule names. */
  lemma CompileKeepsMeaning(ps: seq<NetworkPolicy>, cs: seq<Compiled>, src: Source, x: string, to: string)
    requires (forall c :: c in cs <==> Stands(ps, c)) && Impersonates(ps, src, x)
    ensures AdmittedCompiled(cs, src, to) <==> Admitted(ps, x, to)
  {
    hide CompiledHit, AnyHit, CompiledTargeted, Allowlisted;
    CompiledHits(ps, cs, Deny, src, x, to);
    CompiledHits(ps, cs, Allow, src, x, to);
    CompiledTargets(ps, cs, to);
  }
}
