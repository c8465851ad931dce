/**
 Compiled policies as a chain of Envoy RBAC filters on a service's listener.

 Envoy's meaning of the chain: a DENY filter rejects when any of its policies
 matches, an ALLOW filter admits only when some policy matches, and every
 filter must let the connection through.
 */
module Rbac {
  import opened Order
  import opened Policy

  datatype Principal = AnySource | Address(ip: string)

  /** One filter; policies are keyed as the wire message keys them. */
  datatype Filter = Filter(deny: bool, policies: map<string, seq<Principal>>)

  type Identities = map<string, string>

  function IdentityOf(ids: Identities, ip: string): Source {
    if ip in ids then Service(ids[ip]) else Unidentified
  }

  predicate PolicyMatches(ps: seq<Principal>, ip: string) {
    AnySource in ps || Address(ip) in ps
  }

  ghost predicate FilterAdmits(f: Filter, ip: string) {
    f.deny != exists k | k in f.policies :: PolicyMatches(f.policies[k], ip)
  }

  ghost predicate ChainAdmits(filters: seq<Filter>, ip: string) {
    forall f | f in filters :: FilterAdmits(f, ip)
  }

  // ---------------------------------------------------------------- policy keys

  function Digit(d: nat): char
    requires d < 10
  {
    ('0' as int + d) as char
  }

  function Decimal(n: nat): (s: string)
    ensures Numeral(s) && Value(s) == n
  {
    if n < 10 then [Digit(n)] else
      var front := Decimal(n / 10);
      assert (front + [Digit(n % 10)])[..|front|] == front;
      front + [Digit(n % 10)]
  }

  ghost predicate Numeral(s: string) {
    forall i | 0 <= i < |s| :: '0' <= s[i] <= '9'
  }

  ghost function Value(s: string): nat
    requires Numeral(s)
  {
    if s == "" then 0 else 10 * Value(s[..|s| - 1]) + (s[|s| - 1] as int - '0' as int)
  }

  lemma {:induction false} LeadingZero(s: string)
    requires Numeral(s)
    ensures Numeral("0" + s) && Value("0" + s) == Value(s)
  {
    var z := "0" + s;
    if s != "" {
      LeadingZero(s[..|s| - 1]);
      assert z[..|z| - 1] == "0" + s[..|s| - 1];
    }
  }

  /** The `%03d` verb: at least three digits, more when the number needs them. */
  function Padded(s: string): (r: string)
    requires Numeral(s)
    ensures Numeral(r) && Value(r) == Value(s) && |r| == if |s| > 3 then |s| else 3
    decreases 3 - |s|
  {
    if |s| >= 3 then s else
      LeadingZero(s);
      Padded("0" + s)
  }

  function Key(index: nat, name: string): string {
    Padded(Decimal(index)) + "-" + name
  }

  lemma SameNumeral(a: string, b: string, n: string, m: string)
    requires Numeral(a) && Numeral(b) && |a| <= |b| && a + "-" + n == b + "-" + m
    ensures a == b && n == m
  {
    var k := a + "-" + n;
    assert k[|a|] == '-';
    assert forall i | 0 <= i < |b| :: k[i] == b[i];
    assert a == k[..|a|] && b == k[..|b|];
    assert n == k[|a| + 1..] && m == k[|b| + 1..];
  }

  /** Policy keys never collide, however long the policy list or odd the names. */
  lemma KeyInjective(i: nat, n: string, j: nat, m: string)
    requires Key(i, n) == Key(j, m)
    ensures i == j && n == m
  {
    var a, b := Padded(Decimal(i)), Padded(Decimal(j));
    if |a| <= |b| {
      SameNumeral(a, b, n, m);
    } else {
      SameNumeral(b, a, m, n);
    }
  }

  // ---------------------------------------------------------------- principals

  /** The wildcard's one principal, or the addresses of a service in ascending order. */
  ghost predicate Principals(from: string, ids: Identities, ps: seq<Principal>) {
    if from == "*" then ps == [AnySource] else
      && (forall p | p in ps :: p.Address? && p.ip in ids && ids[p.ip] == from)
      && (forall ip | ip in ids && ids[ip] == from :: Address(ip) in ps)
      && (forall i, j | 0 <= i < j < |ps| :: Less(ps[i].ip, ps[j].ip))
  }

  lemma PrincipalsMatch(from: string, ids: Identities, ps: seq<Principal>, ip: string)
    requires Principals(from, ids, ps)
    ensures PolicyMatches(ps, ip) <==> Satisfies(IdentityOf(ids, ip), from)
  {
    assert from == "*" ==> ps[0] == AnySource;
  }

  method PrincipalsFor(from: string, ids: Identities) returns (ps: seq<Principal>)
    ensures Principals(from, ids, ps)
  {
    if from == "*" {
      return [AnySource];
    }
    var ips: seq<string>, todo := [], ids.Keys;
    while todo != {}
      invariant todo <= ids.Keys
      invariant forall ip :: ip in ips <==> ip in ids && ip !in todo && ids[ip] == from
      invariant forall i, j | 0 <= i < j < |ips| :: ips[i] != ips[j]
      decreases |todo|
    {
      var ip :| ip in todo;
      todo := todo - {ip};
      if ids[ip] == from {
        ips := ips + [ip];
      }
    }
    var sorted := Sort(ips, Less);
    SortEnumerates(ips, set ip | ip in ids && ids[ip] == from);
    ps := [];
    for i := 0 to |sorted|
      invariant |ps| == i && forall j | 0 <= j < i :: ps[j] == Address(sorted[j])
    {
      ps := ps + [Address(sorted[i])];
    }
    forall ip | ip in ids && ids[ip] == from ensures Address(ip) in ps {
      var j :| 0 <= j < |sorted| && sorted[j] == ip;
      assert ps[j] == Address(ip);
    }
  }

  // ---------------------------------------------------------------- the filter chain

  /** The filter builder's own test of a compiled entry's destination. */
  predicate PolicyTargets(c: Compiled, service: string) {
    if c.dst == service then true else c.dst == "*" && service !in c.except
  }

  /** It agrees with the rule test of evaluation. */
  lemma TargetsAgree(c: Compiled, service: string)
    ensures PolicyTargets(c, service) <==> Targets(CompiledRule(c), service)
    ensures PolicyTargets(c, service) <==>
        c.dst == service || (c.dst == "*" && forall e | e in c.except :: e != service)
  {}

  ghost predicate Relevant(c: Compiled, action: Action, service: string) {
    c.action == action && PolicyTargets(c, service)
  }

  /** `from` has someone to name; Envoy rejects policies without principals. */
  ghost predicate Populated(from: string, ids: Identities) {
    from == "*" || from in ids.Values
  }

  /** The first `n` compiled policies of one action, each under its own key, those without principals dropped. */
  ghost predicate Entries(m: map<string, seq<Principal>>, cs: seq<Compiled>, n: nat, action: Action, service: string,
                          ids: Identities) {
    && n <= |cs|
    && (forall i | 0 <= i < n && Relevant(cs[i], action, service) && Populated(cs[i].src, ids) ::
          Key(i, cs[i].policy) in m && Principals(cs[i].src, ids, m[Key(i, cs[i].policy)]))
    && (forall k | k in m :: exists i | 0 <= i < n ::
          Relevant(cs[i], action, service) && Populated(cs[i].src, ids) && k == Key(i, cs[i].policy))
  }

  ghost predicate FiltersFor(service: string, cs: seq<Compiled>, ids: Identities, filters: seq<Filter>) {
    exists deny, allow ::
      && Entries(deny, cs, |cs|, Deny, service, ids) && Entries(allow, cs, |cs|, Allow, service, ids)
      && filters == (if deny == map[] then [] else [Filter(true, deny)])
                  + (if CompiledTargeted(cs, service) then [Filter(false, allow)] else [])
  }

  lemma PrincipalsPopulated(from: string, ids: Identities, ps: seq<Principal>)
    requires Principals(from, ids, ps)
    ensures ps == [] <==> !Populated(from, ids)
  {
    if from != "*" && ps != [] {
      assert ps[0] in ps;
      assert ids[ps[0].ip] in ids.Values;
    }
    if from != "*" && from in ids.Values {
      var ip :| ip in ids && ids[ip] == from;
      assert Address(ip) in ps;
    }
  }

  lemma EntriesSkip(m: map<string, seq<Principal>>, cs: seq<Compiled>, n: nat, action: Action, service: string,
                    ids: Identities)
    requires Entries(m, cs, n, action, service, ids) && n < |cs|
    requires !(Relevant(cs[n], action, service) && Populated(cs[n].src, ids))
    ensures Entries(m, cs, n + 1, action, service, ids)
  {
    hide Relevant, Populated, Principals;
  }

  lemma EntriesAdd(m: map<string, seq<Principal>>, cs: seq<Compiled>, n: nat, action: Action, service: string,
                   ids: Identities,
                   ps: seq<Principal>)
    requires Entries(m, cs, n, action, service, ids) && n < |cs|
    requires Relevant(cs[n], action, service) && Populated(cs[n].src, ids) && Principals(cs[n].src, ids, ps)
    ensures Entries(m[Key(n, cs[n].policy) := ps], cs, n + 1, action, service, ids)
  {
    hide Relevant, Populated, Principals, Key;
    forall i | 0 <= i < n ensures Key(i, cs[i].policy) != Key(n, cs[n].policy) {
      if Key(i, cs[i].policy) == Key(n, cs[n].policy) {
        KeyInjective(i, cs[i].policy, n, cs[n].policy);
      }
    }
  }

  method AddPolicy(m: map<string, seq<Principal>>, cs: seq<Compiled>, n: nat, ids: Identities,
                   ghost action: Action, ghost service: string) returns (r: map<string, seq<Principal>>)
    requires Entries(m, cs, n, action, service, ids) && n < |cs| && Relevant(cs[n], action, service)
    ensures Entries(r, cs, n + 1, action, service, ids)
  {
    hide *;
    var ps := PrincipalsFor(cs[n].src, ids);
    PrincipalsPopulated(cs[n].src, ids, ps);
    if |ps| == 0 {
      EntriesSkip(m, cs, n, action, service, ids);
      return m;
    }
    EntriesAdd(m, cs, n, action, service, ids, ps);
    r := m[Key(n, cs[n].policy) := ps];
  }

  lemma EntriesMatch(m: map<string, seq<Principal>>, cs: seq<Compiled>, action: Action, service: string,
                     ids: Identities, ip: string)
    requires Entries(m, cs, |cs|, action, service, ids)
    ensures (exists k | k in m :: PolicyMatches(m[k], ip)) <==> CompiledHit(cs, action, IdentityOf(ids, ip), service)
  {
    hide Principals, PolicyMatches, Key;
    if k :| k in m && PolicyMatches(m[k], ip) {
      var i :| 0 <= i < |cs| && Relevant(cs[i], action, service) && Populated(cs[i].src, ids)
      && k == Key(i, cs[i].policy);
      PrincipalsMatch(cs[i].src, ids, m[k], ip);
      assert cs[i] in cs;
    }
    if CompiledHit(cs, action, IdentityOf(ids, ip), service) {
      var c :| c in cs && c.action == action && Targets(CompiledRule(c), service)
      && Satisfies(IdentityOf(ids, ip), c.src);
      var i :| 0 <= i < |cs| && cs[i] == c;
      var k := Key(i, c.policy);
      assert Relevant(cs[i], action, service) && Populated(c.src, ids);
      assert k in m;
      PrincipalsMatch(c.src, ids, m[k], ip);
    }
  }

  /** The chain of a listener means what the compiled policies mean for the source's identity. */
  lemma ChainMeaning(service: string, cs: seq<Compiled>, ids: Identities, filters: seq<Filter>, ip: string)
    requires FiltersFor(service, cs, ids, filters)
    ensures ChainAdmits(filters, ip) <==> AdmittedCompiled(cs, IdentityOf(ids, ip), service)
  {
    hide Entries, PolicyMatches, CompiledHit, CompiledTargeted;
    var deny, allow :|
      && Entries(deny, cs, |cs|, Deny, service, ids) && Entries(allow, cs, |cs|, Allow, service, ids)
      && filters == (if deny == map[] then [] else [Filter(true, deny)])
                  + (if CompiledTargeted(cs, service) then [Filter(false, allow)] else []);
    EntriesMatch(deny, cs, Deny, service, ids, ip);
    EntriesMatch(allow, cs, Allow, service, ids, ip);
    var d, a := Filter(true, deny), Filter(false, allow);
    assert FilterAdmits(d, ip) <==> !CompiledHit(cs, Deny, IdentityOf(ids, ip), service);
    assert FilterAdmits(a, ip) <==> CompiledHit(cs, Allow, IdentityOf(ids, ip), service);
    assert deny == map[] ==> FilterAdmits(d, ip);
    assert d in filters <==> deny != map[];
    assert a in filters <==> CompiledTargeted(cs, service);
    assert forall f | f in filters :: f == d || f == a;
  }

  method RbacFilters(service: string, cs: seq<Compiled>, ids: Identities) returns (filters: seq<Filter>)
    ensures FiltersFor(service, cs, ids, filters)
    ensures forall ip :: ChainAdmits(filters, ip) <==> AdmittedCompiled(cs, IdentityOf(ids, ip), service)
  {
    hide Entries, Populated, AdmittedCompiled, ChainAdmits, IdentityOf, CompiledRule, Targets, PolicyTargets;
    var deny: map<string, seq<Principal>>, allow: map<string, seq<Principal>>, allowlist := map[], map[], false;
    NoEntries(cs, Deny, service, ids);
    NoEntries(cs, Allow, service, ids);
    for i := 0 to |cs|
      invariant Entries(deny, cs, i, Deny, service, ids) && Entries(allow, cs, i, Allow, service, ids)
      invariant allowlist <==> exists j | 0 <= j < i :: cs[j].action == Allow && Targets(CompiledRule(cs[j]), service)
    {
      var targeted := PolicyTargets(cs[i], service);
      TargetsAgree(cs[i], service);
      if targeted && cs[i].action == Deny {
        deny := AddPolicy(deny, cs, i, ids, Deny, service);
      } else {
        EntriesSkip(deny, cs, i, Deny, service, ids);
      }
      if targeted && cs[i].action == Allow {
        allowlist := true;
        allow := AddPolicy(allow, cs, i, ids, Allow, service);
      } else {
        EntriesSkip(allow, cs, i, Allow, service, ids);
      }
    }
    assert allowlist <==> CompiledTargeted(cs, service);
    filters := [];
    if |deny| > 0 {
      filters := filters + [Filter(true, deny)];
    }
    if allowlist {
      filters := filters + [Filter(false, allow)];
    }
    forall ip ensures ChainAdmits(filters, ip) <==> AdmittedCompiled(cs, IdentityOf(ids, ip), service) {
      ChainMeaning(service, cs, ids, filters, ip);
    }
  }

  lemma NoEntries(cs: seq<Compiled>, action: Action, service: string, ids: Identities)
    ensures Entries(map[], cs, 0, action, service, ids)
  {}

  /** Policy compilation preserves meaning: the chain admits an address iff Evaluate allows whoever it belongs to. */
  lemma FiltersRefineEvaluate(ps: seq<NetworkPolicy>, cs: seq<Compiled>, ids: Identities, service: string,
                              filters: seq<Filter>,
                              ip: string, x: string, d: Decision)
    requires (forall c :: c in cs <==> Stands(ps, c)) && FiltersFor(service, cs, ids, filters)
    requires Impersonates(ps, IdentityOf(ids, ip), x) && Decides(ps, x, service, d)
    ensures ChainAdmits(filters, ip) <==> d.allowed
  {
    hide *;
    ChainMeaning(service, cs, ids, filters, ip);
    CompileKeepsMeaning(ps, cs, IdentityOf(ids, ip), x, service);
    DecidesVerdict(ps, x, service, d);
  }

  /** End to end, on the rules' own fields. */
  lemma ChainAdmitsByFields(ps: seq<NetworkPolicy>, cs: seq<Compiled>, ids: Identities, service: string,
                            filters: seq<Filter>, ip: string, x: string)
    requires (forall c :: c in cs <==> Stands(ps, c)) && FiltersFor(service, cs, ids, filters)
    requires if ip in ids then x == ids[ip] else forall p, r | p in ps && r in p.rules :: r.src != x
    ensures ChainAdmits(filters, ip) <==> AdmittedByFields(ps, x, service)
  {
    assert Impersonates(ps, IdentityOf(ids, ip), x);
    hide *;
    ChainMeaning(service, cs, ids, filters, ip);
    CompileKeepsMeaning(ps, cs, IdentityOf(ids, ip), x, service);
    AdmittedMeans(ps, x, service);
  }
}
