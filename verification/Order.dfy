/** Orders the program sorts by: Go's string comparison, and sorting itself. */
module Order {

  /** Go's `a < b` on strings. */
  predicate Less(a: string, b: string) {
    b != "" && (a == "" || a[0] < b[0] || (a[0] == b[0] && Less(a[1..], b[1..])))
  }

  /** The strings agree up to position `k`, where `a` ends or has the smaller character. */
  ghost predicate LessFrom(a: string, b: string, k: nat) {
    k <= |a| && k < |b| && a[..k] == b[..k] && (k == |a| || a[k] < b[k])
  }

  lemma {:induction false} LessAt(a: string, b: string) returns (k: nat)
    requires Less(a, b)
    ensures LessFrom(a, b, k)
  {
    if a == "" || a[0] < b[0] {
      k := 0;
    } else {
      var i := LessAt(a[1..], b[1..]);
      k := i + 1;
      assert a[..k] == [a[0]] + a[1..][..i] && b[..k] == [b[0]] + b[1..][..i];
    }
  }

  lemma {:induction false} AtLess(a: string, b: string, k: nat)
    requires LessFrom(a, b, k)
    ensures Less(a, b)
    decreases k
  {
    if k > 0 {
      assert a[..k][0] == b[..k][0];
      assert a[1..][..k - 1] == a[..k][1..] && b[1..][..k - 1] == b[..k][1..];
      AtLess(a[1..], b[1..], k - 1);
    }
  }

  /** Strings compare by the first position at which they part. */
  lemma LessMeans(a: string, b: string)
    ensures Less(a, b) <==> exists k: nat :: LessFrom(a, b, k)
  {
    if Less(a, b) {
      var k := LessAt(a, b);
    }
    if k: nat :| LessFrom(a, b, k) {
      AtLess(a, b, k);
    }
  }

  lemma {:induction false} LessTotal(a: string, b: string)
    ensures Less(a, b) || a == b || Less(b, a)
    ensures !(Less(a, b) && Less(b, a)) && !Less(a, a)
  {
    if a != "" {
      LessTotal(a[1..], a[1..]);
      if b != "" {
        LessTotal(a[1..], b[1..]);
        if a[0] == b[0] && a[1..] == b[1..] {
          assert a == [a[0]] + a[1..] == [b[0]] + b[1..] == b;
        }
      }
    }
  }

  lemma {:induction false} LessTransitive(a: string, b: string, c: string)
    requires Less(a, b) && Less(b, c)
    ensures Less(a, c)
  {
    if a != "" && a[0] == b[0] == c[0] {
      LessTransitive(a[1..], b[1..], c[1..]);
    }
  }

  /** `before` decides a strict total order on the keys of the elements of `s`. */
  ghost predicate Strict<T(!new)>(before: (T, T) -> bool) {
    && (forall x :: !before(x, x))
    && (forall x, y, z :: before(x, y) && before(y, z) ==> before(x, z))
    && (forall x, y, z :: before(x, z) ==> before(x, y) || before(y, z))
  }

  ghost predicate Sorted<T>(s: seq<T>, before: (T, T) -> bool) {
    forall i, j | 0 <= i < j < |s| :: !before(s[j], s[i])
  }

  function Insert<T>(x: T, s: seq<T>, before: (T, T) -> bool): (r: seq<T>)
    ensures multiset(r) == multiset{x} + multiset(s)
  {
    if s == [] then [x]
    else if before(s[0], x) then
      assert s == [s[0]] + s[1..];
      [s[0]] + Insert(x, s[1..], before)
    else [x] + s
  }

  /** A stable sort: equal elements keep their order. */
  function Sort<T>(s: seq<T>, before: (T, T) -> bool): (r: seq<T>)
    ensures multiset(r) == multiset(s)
  {
    if s == [] then [] else
      assert s == [s[0]] + s[1..];
      Insert(s[0], Sort(s[1..], before), before)
  }

  lemma {:induction false} InsertSorted<T(!new)>(x: T, s: seq<T>, before: (T, T) -> bool)
    requires Strict(before) && Sorted(s, before)
    ensures Sorted(Insert(x, s, before), before)
  {
    if s != [] && before(s[0], x) {
      var r := Insert(x, s[1..], before);
      InsertSorted(x, s[1..], before);
      forall y | y in r ensures !before(y, s[0]) {
        assert y in multiset(r);
        assert y == x || y in s[1..];
      }
    }
  }

  lemma {:induction false} SortSorted<T(!new)>(s: seq<T>, before: (T, T) -> bool)
    requires Strict(before)
    ensures Sorted(Sort(s, before), before)
  {
    if s != [] {
      SortSorted(s[1..], before);
      InsertSorted(s[0], Sort(s[1..], before), before);
    }
  }

  ghost predicate Ascending<T>(s: seq<T>, before: (T, T) -> bool) {
    forall i, j | 0 <= i < j < |s| :: before(s[i], s[j]) && !before(s[j], s[i])
  }

  lemma AscendingHead<T>(a: seq<T>, b: seq<T>, before: (T, T) -> bool)
    requires a != [] && Ascending(a, before) && Ascending(b, before) && multiset(a) == multiset(b)
    ensures b != [] && a[0] == b[0]
  {
    assert |a| == |multiset(a)| == |multiset(b)| == |b|;
    assert a[0] in multiset(b) && b[0] in multiset(a);
    var i :| 0 <= i < |a| && a[i] == b[0];
    var j :| 0 <= j < |b| && b[j] == a[0];
  }

  lemma SameTail<T>(a: seq<T>, b: seq<T>)
    requires a != [] && b != [] && a[0] == b[0] && multiset(a) == multiset(b)
    ensures multiset(a[1..]) == multiset(b[1..])
  {
    assert a == [a[0]] + a[1..] && b == [b[0]] + b[1..];
    assert multiset(a[1..]) == multiset(a) - multiset{a[0]};
  }

  lemma {:induction false} InsertAscending<T(!new)>(x: T, s: seq<T>, before: (T, T) -> bool)
    requires Strict(before) && Ascending(s, before)
    requires forall y | y in s :: before(x, y) || before(y, x)
    ensures Ascending(Insert(x, s, before), before)
  {
    if s == [] || !before(s[0], x) {
      InsertFront(x, s, before);
    } else {
      var r := Insert(x, s[1..], before);
      InsertAscending(x, s[1..], before);
      InsertMembers(x, s[1..], before);
      hide Insert;
      AscendingCons(s[0], r, before);
    }
  }

  lemma InsertMembers<T>(x: T, s: seq<T>, before: (T, T) -> bool)
    ensures forall y | y in Insert(x, s, before) :: y == x || y in s
  {
    forall y | y in Insert(x, s, before) ensures y == x || y in s {
      assert y in multiset(Insert(x, s, before));
    }
  }

  lemma AscendingCons<T(!new)>(x: T, s: seq<T>, before: (T, T) -> bool)
    requires Strict(before) && Ascending(s, before) && forall y | y in s :: before(x, y)
    ensures Ascending([x] + s, before)
  {
    forall i, j | 0 <= i < j < |s| + 1
      ensures before(([x] + s)[i], ([x] + s)[j]) && !before(([x] + s)[j], ([x] + s)[i])
    {
      if i == 0 {
        assert s[j - 1] in s;
      }
    }
  }

  lemma InsertFront<T(!new)>(x: T, s: seq<T>, before: (T, T) -> bool)
    requires Strict(before) && Ascending(s, before) && (s == [] || !before(s[0], x))
    requires forall y | y in s :: before(x, y) || before(y, x)
    ensures Ascending(Insert(x, s, before), before)
  {
    forall y | y in s ensures before(x, y) {
      var i :| 0 <= i < |s| && s[i] == y;
      assert s[0] in s;
    }
    AscendingCons(x, s, before);
  }

  /** Sorting elements that are pairwise comparable leaves them strictly ascending. */
  lemma {:induction false} SortAscending<T(!new)>(s: seq<T>, before: (T, T) -> bool)
    requires Strict(before) && forall i, j | 0 <= i < j < |s| :: before(s[i], s[j]) || before(s[j], s[i])
    ensures Ascending(Sort(s, before), before)
  {
    if s != [] {
      var r := Sort(s[1..], before);
      SortAscending(s[1..], before);
      forall y | y in r ensures before(s[0], y) || before(y, s[0]) {
        assert y in multiset(r);
        assert y in s[1..];
      }
      InsertAscending(s[0], r, before);
    }
  }

  lemma LessStrict()
    ensures Strict(Less)
  {
    forall x: string, y: string, z: string | Less(x, y) && Less(y, z) ensures Less(x, z) {
      LessTransitive(x, y, z);
    }
    forall x: string ensures !Less(x, x) {
      LessTotal(x, x);
    }
    forall x: string, y: string, z: string | Less(x, z) ensures Less(x, y) || Less(y, z) {
      LessTotal(x, y);
      if Less(y, x) {
        LessTransitive(y, x, z);
      }
    }
  }

  /** A multiset of elements has at most one ascending arrangement. */
  lemma {:induction false} AscendingUnique<T>(a: seq<T>, b: seq<T>, before: (T, T) -> bool)
    requires Ascending(a, before) && Ascending(b, before) && multiset(a) == multiset(b)
    ensures a == b
  {
    if a == [] {
      assert |b| == |multiset(b)| == 0;
    } else {
      AscendingHead(a, b, before);
      SameTail(a, b);
      AscendingUnique(a[1..], b[1..], before);
      assert a == [a[0]] + a[1..] && b == [b[0]] + b[1..];
    }
  }

  // ---------------------------------------------------------------- first hit of a sorted list

  function FirstOf<T>(s: seq<T>, hit: T -> bool): (r: seq<T>)
    ensures |r| <= 1 && (r == [] <==> forall x | x in s :: !hit(x)) && (r != [] ==> r[0] in s && hit(r[0]))
  {
    if s == [] then [] else if hit(s[0]) then [s[0]] else FirstOf(s[1..], hit)
  }

  lemma {:induction false} FirstIs<T>(s: seq<T>, hit: T -> bool, k: nat)
    requires k < |s| && hit(s[k]) && forall j | 0 <= j < k :: !hit(s[j])
    ensures FirstOf(s, hit) == [s[k]]
  {
    if k > 0 {
      FirstIs(s[1..], hit, k - 1);
    }
  }

  /** `s[k]` is the hit a stable sort puts first: least under `before`, earliest among equals. */
  ghost predicate Leading<T>(s: seq<T>, before: (T, T) -> bool, hit: T -> bool, k: nat) {
    && k < |s| && hit(s[k])
    && (forall j | 0 <= j < |s| && hit(s[j]) :: !before(s[j], s[k]) && (before(s[k], s[j]) || k <= j))
  }

  lemma {:induction false} InsertFirst<T(!new)>(x: T, s: seq<T>, before: (T, T) -> bool, hit: T -> bool)
    requires Strict(before) && Sorted(s, before)
    ensures FirstOf(Insert(x, s, before), hit)
         == var f := FirstOf(s, hit); if hit(x) && (f == [] || !before(f[0], x)) then [x] else f
  {
    if s != [] && before(s[0], x) {
      InsertFirst(x, s[1..], before, hit);
    } else if s != [] && hit(x) {
      var f := FirstOf(s, hit);
      if f != [] {
        assert f[0] == s[0] || before(s[0], f[0]) || !before(f[0], s[0]);
      }
    }
  }

  lemma LeadingCons<T(!new)>(s: seq<T>, before: (T, T) -> bool, hit: T -> bool, i: nat)
    requires Strict(before) && s != [] && Leading(s[1..], before, hit, i)
    ensures Leading(s, before, hit, if hit(s[0]) && !before(s[i + 1], s[0]) then 0 else i + 1)
  {
    assert forall j | 0 < j < |s| :: s[j] == s[1..][j - 1];
  }

  /** The first hit of the sorted list is the leading hit of the input. */
  lemma {:induction false} SortFirst<T(!new)>(s: seq<T>, before: (T, T) -> bool, hit: T -> bool) returns (k: nat)
    requires Strict(before) && exists x | x in s :: hit(x)
    ensures Leading(s, before, hit, k) && FirstOf(Sort(s, before), hit) == [s[k]]
  {
    var rest := s[1..];
    SortSorted(rest, before);
    InsertFirst(s[0], Sort(rest, before), before, hit);
    var f := FirstOf(Sort(rest, before), hit);
    if f == [] {
      k := 0;
      forall x | x in rest ensures !hit(x) {
        assert x in multiset(rest);
        assert x in Sort(rest, before);
      }
    } else {
      assert f[0] in multiset(Sort(rest, before));
      var i := SortFirst(rest, before, hit);
      k := if hit(s[0]) && !before(f[0], s[0]) then 0 else i + 1;
      LeadingCons(s, before, hit, i);
    }
  }

  // ---------------------------------------------------------------- keys in order

  /** The one ascending arrangement of a set of names. */
  ghost predicate Enumerates(names: seq<string>, keys: set<string>) {
    Ascending(names, Less) && forall n :: n in names <==> n in keys
  }

  lemma SortEnumerates(names: seq<string>, keys: set<string>)
    requires forall i, j | 0 <= i < j < |names| :: names[i] != names[j]
    requires forall n :: n in names <==> n in keys
    ensures Enumerates(Sort(names, Less), keys)
  {
    LessStrict();
    forall i, j | 0 <= i < j < |names| ensures Less(names[i], names[j]) || Less(names[j], names[i]) {
      LessTotal(names[i], names[j]);
    }
    SortAscending(names, Less);
    forall n ensures n in Sort(names, Less) <==> n in keys {
      assert n in Sort(names, Less) <==> n in multiset(Sort(names, Less));
      assert n in names <==> n in multiset(names);
    }
  }

  lemma {:induction false} AscendingCounts(s: seq<string>, x: string)
    requires Ascending(s, Less)
    ensures multiset(s)[x] == if x in s then 1 else 0
  {
    if s != [] {
      var rest := s[1..];
      AscendingCounts(rest, x);
      assert s == [s[0]] + rest;
      assert multiset(s) == multiset{s[0]} + multiset(rest);
      LessTotal(s[0], s[0]);
      assert s[0] !in rest;
    }
  }

  lemma EnumeratesUnique(a: seq<string>, b: seq<string>, keys: set<string>)
    requires Enumerates(a, keys) && Enumerates(b, keys)
    ensures a == b
  {
    forall x ensures multiset(a)[x] == multiset(b)[x] {
      AscendingCounts(a, x);
      AscendingCounts(b, x);
    }
    assert multiset(a) == multiset(b);
    AscendingUnique(a, b, Less);
  }

  method SortedKeys(keys: set<string>) returns (names: seq<string>)
    ensures Enumerates(names, keys)
  {
    names := [];
    var todo := keys;
    while todo != {}
      invariant todo <= keys
      invariant forall n :: n in names <==> n in keys && n !in todo
      invariant forall i, j | 0 <= i < j < |names| :: names[i] != names[j]
      decreases |todo|
    {
      var n :| n in todo;
      todo := todo - {n};
      names := names + [n];
    }
    SortEnumerates(names, keys);
    names := Sort(names, Less);
  }

  // ---------------------------------------------------------------- filtering loops

  /** What a loop appends that gives each element some outputs, in order. */
  function Collect<X, Y>(xs: seq<X>, f: X -> seq<Y>): seq<Y> {
    if xs == [] then [] else Collect(xs[..|xs| - 1], f) + f(xs[|xs| - 1])
  }

  lemma {:induction false} CollectMembers<X, Y>(xs: seq<X>, f: X -> seq<Y>, y: Y)
    ensures y in Collect(xs, f) <==> exists x | x in xs :: y in f(x)
  {
    if xs != [] {
      var init, last := xs[..|xs| - 1], xs[|xs| - 1];
      CollectMembers(init, f, y);
      assert xs == init + [last];
    }
  }

  lemma CollectStep<X, Y>(xs: seq<X>, f: X -> seq<Y>, k: nat)
    requires k < |xs|
    ensures Collect(xs[..k + 1], f) == Collect(xs[..k], f) + f(xs[k])
  {
    assert xs[..k + 1][..k] == xs[..k];
  }

  /** Outputs that come from different elements under different keys never repeat a key. */
  lemma {:induction false} CollectUnique<X, Y, K>(xs: seq<X>, f: X -> seq<Y>, key: Y -> K)
    requires forall x :: |f(x)| <= 1
    requires forall i, j, y, z | 0 <= i < j < |xs| && y in f(xs[i]) && z in f(xs[j]) :: key(y) != key(z)
    ensures forall i, j | 0 <= i < j < |Collect(xs, f)| :: key(Collect(xs, f)[i]) != key(Collect(xs, f)[j])
  {
    if xs != [] {
      var init, last := xs[..|xs| - 1], xs[|xs| - 1];
      CollectUnique(init, f, key);
      var c := Collect(init, f);
      forall i, z | 0 <= i < |c| && z in f(last) ensures key(c[i]) != key(z) {
        CollectMembers(init, f, c[i]);
        assert c[i] in c;
      }
    }
  }
}
